/** The names files kept from a replaced View try in `View (kept)/`. */
module KeptNames {
  import opened Text

  const MAX_NUMBER: nat := 0xFFFF_FFFF

  /** Where a name's extension starts, its dot included: the end of the name
      when it has none. A leading dot starts no extension. */
  function ExtensionAt(name: string): (k: nat)
    ensures k <= |name|
  {
    var dot := LastIndexOf(name, '.');
    if dot == 0 then |name| else dot
  }

  /** The name with this number: from two on, the number goes before the
      extension. */
  function KeptName(name: string, number: nat): string {
    if number <= 1 then name
    else name[..ExtensionAt(name)] + "-" + Decimal(number) + name[ExtensionAt(name)..]
  }

  /** No two tries of one name are the same. */
  lemma KeptNameInjective(name: string, a: nat, b: nat)
    requires 1 <= a && 1 <= b && KeptName(name, a) == KeptName(name, b)
    ensures a == b
  {
    if a > 1 && b > 1 {
      var at := ExtensionAt(name);
      var s, t := KeptName(name, a), KeptName(name, b);
      assert s[at + 1..at + 1 + |Decimal(a)|] == Decimal(a);
      assert t[at + 1..at + 1 + |Decimal(b)|] == Decimal(b);
      DecimalRoundTrip(a);
      DecimalRoundTrip(b);
    }
  }

  /** No two of these tries are the same. */
  ghost predicate Differ(tries: nat -> string) {
    forall a, b :: 1 <= a && 1 <= b && tries(a) == tries(b) ==> a == b
  }

  function TriesFrom(tries: nat -> string, from: nat, to: nat): set<string> {
    set k | from <= k < to :: tries(k)
  }

  lemma {:induction false} TriesAreMany(tries: nat -> string, from: nat, to: nat)
    requires 1 <= from <= to && Differ(tries)
    ensures |TriesFrom(tries, from, to)| == to - from
  {
    if from == to {
      assert TriesFrom(tries, from, to) == {};
    } else {
      TriesAreMany(tries, from, to - 1);
      assert TriesFrom(tries, from, to) == TriesFrom(tries, from, to - 1) + {tries(to - 1)};
    }
  }

  lemma SubsetIsSmaller<T>(a: set<T>, b: set<T>)
    requires a <= b
    ensures |a| <= |b|
  {
    assert b == a + (b - a);
  }

  /** As many names are taken as tries are. */
  lemma TakenCoversTries(tries: nat -> string, from: nat, to: nat, taken: set<string>)
    requires 1 <= from <= to && Differ(tries)
    requires forall k :: from <= k < to ==> tries(k) in taken
    ensures to - from <= |taken|
  {
    TriesAreMany(tries, from, to);
    SubsetIsSmaller(TriesFrom(tries, from, to), taken);
  }

  /** The first free try numbered `from` or later, in at most one more try
      than there are names taken. */
  method FirstFree(tries: nat -> string, from: nat, taken: set<string>) returns (found: bool, number: nat)
    requires 1 <= from <= MAX_NUMBER && Differ(tries)
    ensures from <= number <= MAX_NUMBER && number - from <= |taken|
    ensures found ==> tries(number) !in taken
    ensures forall k :: from <= k < number ==> tries(k) in taken
    ensures !found ==> number == MAX_NUMBER && tries(number) in taken && MAX_NUMBER - from < |taken|
  {
    number := from;
    while tries(number) in taken
      invariant from <= number <= MAX_NUMBER
      invariant forall k :: from <= k < number ==> tries(k) in taken
      decreases MAX_NUMBER - number
    {
      if number == MAX_NUMBER {
        TakenCoversTries(tries, from, number + 1, taken);
        return false, number;
      }
      number := number + 1;
    }
    TakenCoversTries(tries, from, number, taken);
    found := true;
  }

  /** The tries of one name. */
  function Tries(name: string): nat -> string {
    (number: nat) => KeptName(name, number)
  }

  lemma TriesDiffer(name: string)
    ensures Differ(Tries(name))
  {
    forall a, b | 1 <= a && 1 <= b && Tries(name)(a) == Tries(name)(b) ensures a == b {
      KeptNameInjective(name, a, b);
    }
  }
}
