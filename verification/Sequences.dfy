/** Sequences filtered and mapped in one pass, and rearranged. */
module Sequences {
  import opened Wrappers

  lemma SameMembers<T>(a: seq<T>, b: seq<T>)
    requires multiset(a) == multiset(b)
    ensures |a| == |b| && forall x :: x in a <==> x in b
  {
    assert |a| == |multiset(a)| && |b| == |multiset(b)|;
    forall x ensures x in a <==> x in b {
      assert x in a <==> x in multiset(a);
      assert x in b <==> x in multiset(b);
    }
    if |a| == 1 {
      assert a[0] in b;
    }
  }

  function Listed<T>(x: Option<T>): seq<T> {
    if x.Some? then [x.value] else []
  }

  /** What `f` makes of each element in turn, where it makes something. */
  function Collected<A, B>(f: A -> Option<B>, s: seq<A>): seq<B> {
    if s == [] then [] else Collected(f, s[..|s| - 1]) + Listed(f(s[|s| - 1]))
  }

  lemma {:induction false} CollectedAdd<A, B>(f: A -> Option<B>, a: seq<A>, b: seq<A>)
    ensures Collected(f, a + b) == Collected(f, a) + Collected(f, b)
  {
    if b == [] {
      assert a + b == a;
    } else {
      assert (a + b)[..|a + b| - 1] == a + b[..|b| - 1];
      CollectedAdd(f, a, b[..|b| - 1]);
    }
  }

  lemma PullOut<T>(s: seq<T>, i: nat)
    requires i < |s|
    ensures s == s[..i] + ([s[i]] + s[i + 1..])
    ensures multiset(s[..i] + s[i + 1..]) == multiset(s) - multiset{s[i]}
  {
    assert s == s[..i] + ([s[i]] + s[i + 1..]);
    assert multiset(s) == multiset(s[..i]) + multiset{s[i]} + multiset(s[i + 1..]);
  }

  lemma CollectedPullsOut<A, B>(f: A -> Option<B>, s: seq<A>, i: nat)
    requires i < |s|
    ensures multiset(Collected(f, s)) == multiset(Collected(f, s[..i] + s[i + 1..])) + multiset(Listed(f(s[i])))
  {
    var before, after := s[..i], s[i + 1..];
    PullOut(s, i);
    CollectedAdd(f, before, [s[i]] + after);
    CollectedAdd(f, [s[i]], after);
    CollectedAdd(f, before, after);
    assert [s[i]][..0] == [] && Collected(f, [s[i]]) == Listed(f(s[i]));
  }

  /** Rearranged elements make the same, rearranged. */
  lemma {:induction false} CollectedPermutes<A, B>(f: A -> Option<B>, a: seq<A>, b: seq<A>)
    requires multiset(a) == multiset(b)
    ensures multiset(Collected(f, a)) == multiset(Collected(f, b))
  {
    SameMembers(a, b);
    if a != [] {
      assert a[0] in b;
      var i :| 0 <= i < |b| && b[i] == a[0];
      PullOut(a, 0);
      PullOut(b, i);
      CollectedPullsOut(f, a, 0);
      CollectedPullsOut(f, b, i);
      assert a[..0] + a[1..] == a[1..];
      CollectedPermutes(f, a[1..], b[..i] + b[i + 1..]);
    }
  }

  predicate Makes<A, B(==)>(f: A -> Option<B>, s: seq<A>, i: int, y: B) {
    0 <= i < |s| && f(s[i]) == Some(y)
  }

  /** What a pass makes is what it makes of some element. */
  lemma {:induction false} MadeFrom<A, B>(f: A -> Option<B>, s: seq<A>)
    ensures forall y :: y in Collected(f, s) <==> exists i :: Makes(f, s, i, y)
  {
    if s != [] {
      var head, last := s[..|s| - 1], |s| - 1;
      MadeFrom(f, head);
      forall y ensures y in Collected(f, s) <==> exists i :: Makes(f, s, i, y) {
        if y in Collected(f, head) {
          var i :| Makes(f, head, i, y);
          assert Makes(f, s, i, y);
        } else if y in Collected(f, s) {
          assert Makes(f, s, last, y);
        }
        if i :| Makes(f, s, i, y) {
          assert i < last ==> Makes(f, head, i, y);
        }
      }
    }
  }

  lemma NothingMade<A, B>(f: A -> Option<B>, s: seq<A>)
    ensures Collected(f, s) == [] <==> forall x :: x in s ==> f(x).None?
  {
    MadeFrom(f, s);
    var made := Collected(f, s);
    if made != [] {
      assert made[0] in made;
      var i :| Makes(f, s, i, made[0]);
      assert s[i] in s;
    }
    forall x | x in s && f(x).Some? ensures made != [] {
      var i :| 0 <= i < |s| && s[i] == x;
      assert Makes(f, s, i, f(x).value) && f(x).value in made;
    }
  }
}
