/** Decimal numerals and the platform's measure of a name. */
module Text {
  // ---- Decimal numerals ----

  const DIGITS: string := "0123456789"

  predicate IsDigit(c: char) {
    '0' <= c <= '9'
  }

  function Decimal(n: nat): (s: string)
    ensures s != [] && forall k :: 0 <= k < |s| ==> IsDigit(s[k])
  {
    if n < 10 then [DIGITS[n]] else Decimal(n / 10) + [DIGITS[n % 10]]
  }

  function DigitValue(c: char): nat
    requires IsDigit(c)
  {
    (c as int) - ('0' as int)
  }

  function Value(s: string): nat
    requires forall k :: 0 <= k < |s| ==> IsDigit(s[k])
  {
    if s == [] then 0 else 10 * Value(s[..|s| - 1]) + DigitValue(s[|s| - 1])
  }

  lemma {:induction false} DecimalRoundTrip(n: nat)
    ensures Value(Decimal(n)) == n
  {
    if n >= 10 {
      DecimalRoundTrip(n / 10);
      assert Decimal(n)[..|Decimal(n)| - 1] == Decimal(n / 10);
    }
  }

  // ---- Lengths ----

  /** The octets of one character in UTF-8. */
  function Octets(c: char): (w: nat)
    ensures 1 <= w <= 4
  {
    var code := c as int;
    if code < 0x80 then 1 else if code < 0x800 then 2 else if code < 0x10000 then 3 else 4
  }

  /** What one character adds to a component's length: UTF-16 units on
      Windows, octets elsewhere. */
  function Width(c: char, windows: bool): (w: nat)
    ensures 1 <= w <= 4
  {
    if !windows then Octets(c) else if (c as int) < 0x10000 then 1 else 2
  }

  function Length(s: string, windows: bool): nat {
    if s == [] then 0 else Length(s[..|s| - 1], windows) + Width(s[|s| - 1], windows)
  }

  lemma {:induction false} LengthAdds(a: string, b: string, windows: bool)
    ensures Length(a + b, windows) == Length(a, windows) + Length(b, windows)
  {
    if b == [] {
      assert a + b == a;
    } else {
      assert (a + b)[..|a + b| - 1] == a + b[..|b| - 1];
      LengthAdds(a, b[..|b| - 1], windows);
    }
  }

  lemma {:induction false} LengthOfPrefix(s: string, k: nat, windows: bool)
    requires k <= |s|
    ensures Length(s[..k], windows) <= Length(s, windows)
  {
    LengthAdds(s[..k], s[k..], windows);
    assert s[..k] + s[k..] == s;
  }

  /** The place of the last `c` in `s`, or `|s|`. */
  function LastIndexOf(s: string, c: char): (k: nat)
    ensures k <= |s|
    ensures k < |s| ==> s[k] == c && forall i :: k < i < |s| ==> s[i] != c
    ensures k == |s| ==> c !in s
  {
    LastIndexBefore(s, c, |s|)
  }

  function LastIndexBefore(s: string, c: char, end: nat): (k: nat)
    requires end <= |s|
    requires forall i :: end <= i < |s| ==> s[i] != c
    ensures k <= |s|
    ensures k < |s| ==> s[k] == c && forall i :: k < i < |s| ==> s[i] != c
    ensures k == |s| ==> c !in s
  {
    if end == 0 then |s|
    else if s[end - 1] == c then end - 1
    else LastIndexBefore(s, c, end - 1)
  }

  /** The place of the first `c` in `s`, or `|s|`. */
  function IndexOf(s: string, c: char): (k: nat)
    ensures k <= |s| && c !in s[..k]
    ensures k < |s| ==> s[k] == c
    ensures k == |s| ==> c !in s
  {
    if s == [] || s[0] == c then 0
    else
      var k := IndexOf(s[1..], c) + 1;
      assert s[..k] == [s[0]] + s[1..][..k - 1];
      k
  }

  /** `IndexOf` is the only place with what it promises. */
  lemma FirstIs(s: string, c: char, k: nat)
    requires k < |s| && s[k] == c && c !in s[..k]
    ensures IndexOf(s, c) == k
  {
    var i := IndexOf(s, c);
    forall j | 0 <= j < k ensures s[j] != c {
      assert s[..k][j] == s[j];
    }
    forall j | 0 <= j < i ensures s[j] != c {
      assert s[..i][j] == s[j];
    }
  }

  // ---- Parts between separators ----

  function SplitOn(s: string, c: char): (parts: seq<string>)
    ensures parts != [] && forall p :: p in parts ==> c !in p
    decreases |s|
  {
    var k := IndexOf(s, c);
    if k == |s| then [s] else [s[..k]] + SplitOn(s[k + 1..], c)
  }

  function JoinWith(parts: seq<string>, c: char): string {
    if parts == [] then []
    else if |parts| == 1 then parts[0]
    else parts[0] + [c] + JoinWith(parts[1..], c)
  }

  lemma SplitAtFirst(head: string, tail: string, c: char)
    requires c !in head
    ensures SplitOn(head + [c] + tail, c) == [head] + SplitOn(tail, c)
  {
    var s := head + [c] + tail;
    assert s[..|head|] == head && s[|head| + 1..] == tail;
    FirstIs(s, c, |head|);
  }

  lemma {:induction false} SplitOfJoin(parts: seq<string>, c: char)
    requires parts != [] && forall p :: p in parts ==> c !in p
    ensures SplitOn(JoinWith(parts, c), c) == parts
  {
    if |parts| == 1 {
      assert parts[0] in parts && IndexOf(parts[0], c) == |parts[0]|;
    } else {
      SplitOfJoin(parts[1..], c);
      SplitAtFirst(parts[0], JoinWith(parts[1..], c), c);
      assert parts == [parts[0]] + parts[1..];
    }
  }

  // ---- Blanks ----

  /** The characters Unicode gives the White_Space property. */
  predicate IsWhitespace(c: char) {
    var code := c as int;
    || 0x9 <= code <= 0xD || code == 0x20 || code == 0x85 || code == 0xA0
    || code == 0x1680 || 0x2000 <= code <= 0x200A
    || code == 0x2028 || code == 0x2029 || code == 0x202F || code == 0x205F || code == 0x3000
  }

  predicate Blank(s: string) {
    forall k :: 0 <= k < |s| ==> IsWhitespace(s[k])
  }

  ghost predicate Part(s: string, t: string) {
    exists i, j :: 0 <= i <= j <= |s| && Cut(s, i, j, t)
  }

  predicate Cut(s: string, i: nat, j: nat, t: string) {
    i <= j <= |s| && t == s[i..j]
  }

  /** `s` without the characters at both its ends that `cut` names. */
  function Trim(s: string, cut: char -> bool): (t: string)
    ensures t != [] ==> !cut(t[0]) && !cut(t[|t| - 1])
    ensures Part(s, t)
    ensures t == [] <==> forall k :: 0 <= k < |s| ==> cut(s[k])
  {
    if s != [] && cut(s[0]) then
      var t := Trim(s[1..], cut);
      assert Part(s, t) by {
        var i, j :| 0 <= i <= j <= |s[1..]| && Cut(s[1..], i, j, t);
        assert Cut(s, i + 1, j + 1, t);
      }
      t
    else if s != [] && cut(s[|s| - 1]) then
      var t := Trim(s[..|s| - 1], cut);
      assert Part(s, t) by {
        var i, j :| 0 <= i <= j <= |s[..|s| - 1]| && Cut(s[..|s| - 1], i, j, t);
        assert Cut(s, i, j, t);
      }
      t
    else
      assert Cut(s, 0, |s|, s);
      s
  }

  // ---- Text order ----

  /** The order text is compared in, character by character. */
  predicate LexLess(a: string, b: string) {
    if b == [] then false
    else if a == [] then true
    else if a[0] != b[0] then a[0] < b[0]
    else LexLess(a[1..], b[1..])
  }

  lemma {:induction false} LexConcat(a: string, c: string, b: string, d: string)
    requires |a| == |b|
    ensures LexLess(a + c, b + d) <==> LexLess(a, b) || (a == b && LexLess(c, d))
  {
    if a == [] {
      assert a + c == c && b + d == d;
    } else {
      assert (a + c)[1..] == a[1..] + c && (b + d)[1..] == b[1..] + d;
      LexConcat(a[1..], c, b[1..], d);
    }
  }

  lemma {:induction false} LexIrreflexive(a: string)
    ensures !LexLess(a, a)
  {
    if a != [] { LexIrreflexive(a[1..]); }
  }

  lemma {:induction false} LexAsymmetric(a: string, b: string)
    requires LexLess(a, b)
    ensures !LexLess(b, a)
  {
    if a != [] && a[0] == b[0] { LexAsymmetric(a[1..], b[1..]); }
  }

  lemma {:induction false} LexTotal(a: string, b: string)
    ensures a == b || LexLess(a, b) || LexLess(b, a)
  {
    if a != [] && b != [] && a[0] == b[0] {
      LexTotal(a[1..], b[1..]);
      assert a == [a[0]] + a[1..] && b == [b[0]] + b[1..];
    }
  }

  lemma {:induction false} LexTransitive(a: string, b: string, c: string)
    requires LexLess(a, b) && LexLess(b, c)
    ensures LexLess(a, c)
  {
    if a != [] && a[0] == b[0] == c[0] {
      LexTransitive(a[1..], b[1..], c[1..]);
    }
  }
}
