/** Comparisons put together one after another, and sorting by them. */
module Ordering {
  import opened Wrappers
  import opened Text
  import opened Sequences

  datatype Order = Less | Equal | Greater

  function Then(first: Order, next: Order): Order {
    if first.Equal? then next else first
  }

  function Flip(o: Order): Order {
    match o
    case Less => Greater
    case Equal => Equal
    case Greater => Less
  }

  type Comparison<!T> = (T, T) -> Order

  /** Any two compare, the same way from both sides, and what comes no later
      carries over. */
  ghost predicate Preorder<T(!new)>(cmp: Comparison<T>) {
    && (forall a, b :: cmp(b, a) == Flip(cmp(a, b)))
    && (forall a, b, c :: !cmp(a, b).Greater? && !cmp(b, c).Greater? ==> cmp(a, c) == Then(cmp(a, b), cmp(b, c)))
  }

  function Lexicographic<T>(first: Comparison<T>, next: Comparison<T>): Comparison<T> {
    (a, b) => Then(first(a, b), next(a, b))
  }

  lemma LexicographicIsPreorder<T(!new)>(first: Comparison<T>, next: Comparison<T>)
    requires Preorder(first) && Preorder(next)
    ensures Preorder(Lexicographic(first, next))
  {
    var cmp := Lexicographic(first, next);
    forall a, b, c | !cmp(a, b).Greater? && !cmp(b, c).Greater? ensures cmp(a, c) == Then(cmp(a, b), cmp(b, c)) {
      assert first(a, c) == Then(first(a, b), first(b, c));
    }
  }

  // ---- Comparisons of parts ----

  function BoolOrder(a: bool, b: bool): Order {
    if a == b then Equal else if b then Less else Greater
  }

  function IntOrder(a: int, b: int): Order {
    if a < b then Less else if a == b then Equal else Greater
  }

  function RealOrder(a: real, b: real): Order {
    if a < b then Less else if a == b then Equal else Greater
  }

  function TextOrder(a: string, b: string): Order {
    if a == b then Equal else if LexLess(a, b) then Less else Greater
  }

  lemma TextOrderIsPreorder()
    ensures Preorder(TextOrder)
  {
    forall a, b ensures TextOrder(b, a) == Flip(TextOrder(a, b)) {
      LexTotal(a, b);
      if LexLess(a, b) { LexAsymmetric(a, b); }
      if LexLess(b, a) { LexAsymmetric(b, a); }
    }
    forall a, b, c | !TextOrder(a, b).Greater? && !TextOrder(b, c).Greater?
      ensures TextOrder(a, c) == Then(TextOrder(a, b), TextOrder(b, c))
    {
      LexIrreflexive(a);
      if LexLess(a, b) && LexLess(b, c) {
        LexTransitive(a, b, c);
      }
    }
  }

  /** Comparing by a part compared by a preorder is a preorder. */
  function By<T, U>(part: T -> U, cmp: Comparison<U>): Comparison<T> {
    (a, b) => cmp(part(a), part(b))
  }

  lemma ByIsPreorder<T(!new), U(!new)>(part: T -> U, cmp: Comparison<U>)
    requires Preorder(cmp)
    ensures Preorder(By(part, cmp))
  {
    var whole := By(part, cmp);
    forall a, b, c | !whole(a, b).Greater? && !whole(b, c).Greater? ensures whole(a, c) == Then(whole(a, b), whole(b, c)) {
      assert cmp(part(a), part(c)) == Then(cmp(part(a), part(b)), cmp(part(b), part(c)));
    }
  }

  /** Known values before unknown ones. */
  function KnownFirst<U>(cmp: Comparison<U>): Comparison<Option<U>> {
    (a: Option<U>, b: Option<U>) =>
      if a.Some? && b.Some? then cmp(a.value, b.value)
      else if a.Some? then Less
      else if b.Some? then Greater
      else Equal
  }

  lemma KnownFirstIsPreorder<U(!new)>(cmp: Comparison<U>)
    requires Preorder(cmp)
    ensures Preorder(KnownFirst(cmp))
  {
    var known := KnownFirst(cmp);
    forall a, b, c | !known(a, b).Greater? && !known(b, c).Greater? ensures known(a, c) == Then(known(a, b), known(b, c)) {
      if a.Some? && b.Some? && c.Some? {
        assert cmp(a.value, c.value) == Then(cmp(a.value, b.value), cmp(b.value, c.value));
      }
    }
  }

  /** Unknown values before known ones. */
  function UnknownFirst<U>(cmp: Comparison<U>): Comparison<Option<U>> {
    (a: Option<U>, b: Option<U>) =>
      if a.Some? && b.Some? then cmp(a.value, b.value)
      else if a.Some? then Greater
      else if b.Some? then Less
      else Equal
  }

  lemma UnknownFirstIsPreorder<U(!new)>(cmp: Comparison<U>)
    requires Preorder(cmp)
    ensures Preorder(UnknownFirst(cmp))
  {
    var unknown := UnknownFirst(cmp);
    forall a, b, c | !unknown(a, b).Greater? && !unknown(b, c).Greater? ensures unknown(a, c) == Then(unknown(a, b), unknown(b, c)) {
      if a.Some? && b.Some? && c.Some? {
        assert cmp(a.value, c.value) == Then(cmp(a.value, b.value), cmp(b.value, c.value));
      }
    }
  }

  // ---- Sorting ----

  ghost predicate Sorted<T(!new)>(cmp: Comparison<T>, s: seq<T>) {
    forall i, j :: 0 <= i < j < |s| ==> !cmp(s[i], s[j]).Greater?
  }

  /** `x` before the first that comes after it. */
  function Insert<T>(cmp: Comparison<T>, x: T, s: seq<T>): (r: seq<T>)
    ensures multiset(r) == multiset(s) + multiset{x}
  {
    if s == [] || cmp(x, s[0]).Less? then
      assert multiset([x] + s) == multiset{x} + multiset(s);
      [x] + s
    else
      assert s == [s[0]] + s[1..];
      [s[0]] + Insert(cmp, x, s[1..])
  }

  lemma {:induction false} InsertSorts<T(!new)>(cmp: Comparison<T>, x: T, s: seq<T>)
    requires Preorder(cmp) && Sorted(cmp, s)
    ensures Sorted(cmp, Insert(cmp, x, s))
  {
    if s == [] {
    } else if cmp(x, s[0]).Less? {
      forall j | 0 < j < |s| ensures !cmp(x, s[j]).Greater? {
        assert !cmp(s[0], s[j]).Greater?;
      }
    } else {
      var rest := Insert(cmp, x, s[1..]);
      InsertSorts(cmp, x, s[1..]);
      forall j | 0 <= j < |rest| ensures !cmp(s[0], rest[j]).Greater? {
        assert rest[j] in multiset(rest);
        assert rest[j] == x || rest[j] in s[1..];
      }
    }
  }

  /** A stable sort. */
  function SortBy<T>(cmp: Comparison<T>, s: seq<T>): (r: seq<T>)
    ensures multiset(r) == multiset(s)
  {
    if s == [] then []
    else
      assert s == s[..|s| - 1] + [s[|s| - 1]];
      Insert(cmp, s[|s| - 1], SortBy(cmp, s[..|s| - 1]))
  }

  lemma {:induction false} SortSorts<T(!new)>(cmp: Comparison<T>, s: seq<T>)
    requires Preorder(cmp)
    ensures Sorted(cmp, SortBy(cmp, s))
  {
    if s != [] {
      SortSorts(cmp, s[..|s| - 1]);
      InsertSorts(cmp, s[|s| - 1], SortBy(cmp, s[..|s| - 1]));
    }
  }

  /** Among these, what compares equal is the same. */
  ghost predicate Decides<T(!new)>(cmp: Comparison<T>, s: seq<T>) {
    forall x, y :: x in s && y in s && cmp(x, y).Equal? ==> x == y
  }

  lemma FirstOfSorted<T(!new)>(cmp: Comparison<T>, a: seq<T>, b: seq<T>)
    requires a != [] && multiset(a) == multiset(b) && Preorder(cmp)
    requires Sorted(cmp, a) && Sorted(cmp, b) && Decides(cmp, a)
    ensures b != [] && a[0] == b[0]
  {
    SameMembers(a, b);
    assert a[0] in b && b[0] in a;
    var i :| 0 <= i < |a| && a[i] == b[0];
    var j :| 0 <= j < |b| && b[j] == a[0];
    assert i > 0 ==> !cmp(a[0], a[i]).Greater?;
    assert j > 0 ==> !cmp(b[0], b[j]).Greater?;
  }

  lemma TailsMatch<T>(a: seq<T>, b: seq<T>)
    requires a != [] && b != [] && a[0] == b[0] && multiset(a) == multiset(b)
    ensures multiset(a[1..]) == multiset(b[1..])
  {
    assert a == [a[0]] + a[1..] && b == [b[0]] + b[1..];
    assert multiset(a[1..]) == multiset(a) - multiset{a[0]};
    assert multiset(b[1..]) == multiset(b) - multiset{b[0]};
  }

  /** Where equal means the same, there is one sorted order. */
  lemma {:induction false} SortedIsUnique<T(!new)>(cmp: Comparison<T>, a: seq<T>, b: seq<T>)
    requires multiset(a) == multiset(b) && Preorder(cmp)
    requires Sorted(cmp, a) && Sorted(cmp, b) && Decides(cmp, a)
    ensures a == b
  {
    if a == [] {
      SameMembers(a, b);
    } else {
      FirstOfSorted(cmp, a, b);
      TailsMatch(a, b);
      SortedIsUnique(cmp, a[1..], b[1..]);
      assert a == [a[0]] + a[1..] && b == [b[0]] + b[1..];
    }
  }

  /** Where equal means the same, rearranged elements sort alike. */
  lemma SortsAlike<T(!new)>(cmp: Comparison<T>, a: seq<T>, b: seq<T>)
    requires multiset(a) == multiset(b) && Preorder(cmp) && Decides(cmp, a)
    ensures SortBy(cmp, a) == SortBy(cmp, b)
  {
    SortSorts(cmp, a);
    SortSorts(cmp, b);
    SameMembers(a, SortBy(cmp, a));
    SortedIsUnique(cmp, SortBy(cmp, a), SortBy(cmp, b));
  }
}
