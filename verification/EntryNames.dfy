/** The name each input of a Project gets in a folder: its own where it can
    have it, else one made from its id, always within one path component. */
module EntryNames {
  import opened Text
  import SafeFilename

  /** How long an entry's name may be. */
  const COMPONENT_LIMIT: nat := 255
  const SHORT_ID: nat := 8
  const FULL_ID: nat := 32

  // ---- Shortening ----

  /** How many characters of `name` fit `room`: the most that do. */
  function FitCount(name: string, room: nat, windows: bool): (k: nat)
    ensures k <= |name| && Length(name[..k], windows) <= room
    ensures k < |name| ==> Length(name[..k + 1], windows) > room
  {
    if name == [] then 0
    else if Length(name, windows) <= room then
      assert name[..|name|] == name;
      |name|
    else
      var shorter := name[..|name| - 1];
      var k := FitCount(shorter, room, windows);
      assert shorter[..k] == name[..k];
      assert k < |shorter| ==> shorter[..k + 1] == name[..k + 1];
      assert k == |shorter| ==> name[..k + 1] == name;
      k
  }

  lemma FitIsLast(name: string, room: nat, windows: bool, k: nat)
    requires k < |name| && Length(name[..k], windows) <= room && Length(name[..k + 1], windows) > room
    ensures FitCount(name, room, windows) == k
  {
    var i := FitCount(name, room, windows);
    if i < k {
      assert name[..k][..i + 1] == name[..i + 1];
      LengthOfPrefix(name[..k], i + 1, windows);
    } else if k < i {
      assert name[..i][..k + 1] == name[..k + 1];
      LengthOfPrefix(name[..i], k + 1, windows);
    }
  }

  function TrimEnd(s: string): (t: string)
    ensures t <= s
    ensures t != [] ==> t[|t| - 1] != '-' && t[|t| - 1] != '.'
  {
    if s != [] && (s[|s| - 1] == '-' || s[|s| - 1] == '.') then TrimEnd(s[..|s| - 1]) else s
  }

  function Room(limit: nat, suffix: string, windows: bool): nat {
    if Length(suffix, windows) <= limit then limit - Length(suffix, windows) else 0
  }

  function CappedName(name: string, limit: nat, suffix: string, windows: bool): string {
    if Length(name, windows) <= limit then name
    else TrimEnd(name[..FitCount(name, Room(limit, suffix, windows), windows)]) + suffix
  }

  /** `name` when it fits, else as much of its start as leaves room for `suffix`. */
  method Capped(name: string, limit: nat, suffix: string, windows: bool) returns (r: string)
    ensures r == CappedName(name, limit, suffix, windows)
  {
    if Length(name, windows) <= limit {
      return name;
    }
    var room, used, end := Room(limit, suffix, windows), 0, 0;
    while end < |name| && used + Width(name[end], windows) <= room
      invariant end <= |name| && used == Length(name[..end], windows) && used <= room
    {
      assert name[..end + 1][..end] == name[..end];
      used := used + Width(name[end], windows);
      end := end + 1;
    }
    assert end < |name| by { assert name[..|name|] == name; }
    assert name[..end + 1][..end] == name[..end];
    FitIsLast(name, room, windows, end);
    r := TrimEnd(name[..end]) + suffix;
  }

  /** What is shortened is the name's start, then the suffix. */
  lemma CappedKeepsStart(name: string, limit: nat, suffix: string, windows: bool)
    requires Length(name, windows) > limit
    ensures exists k :: 0 <= k <= |name| && CappedName(name, limit, suffix, windows) == name[..k] + suffix
  {
    var fit := name[..FitCount(name, Room(limit, suffix, windows), windows)];
    var start := TrimEnd(fit);
    assert start == fit[..|start|] == name[..|start|];
  }

  /** What is shortened fits. */
  lemma CappedFits(name: string, limit: nat, suffix: string, windows: bool)
    requires Length(suffix, windows) <= limit
    ensures Length(CappedName(name, limit, suffix, windows), windows) <= limit
  {
    if Length(name, windows) > limit {
      var fit := name[..FitCount(name, Room(limit, suffix, windows), windows)];
      var start := TrimEnd(fit);
      assert start == fit[..|start|] == name[..|start|];
      LengthOfPrefix(fit, |start|, windows);
      LengthAdds(start, suffix, windows);
    }
  }

  // ---- One entry's names ----

  predicate IsHexDigit(c: char) {
    '0' <= c <= '9' || 'a' <= c <= 'f'
  }

  predicate IsId(id: string) {
    |id| == FULL_ID && forall k :: 0 <= k < |id| ==> IsHexDigit(id[k])
  }

  /** The source's name as an entry may carry it. */
  function OwnName(source: string): (s: string)
    ensures s != []
  {
    var trimmed := Trim(source, SafeFilename.IsEdge);
    if trimmed == [] then "entry" else trimmed
  }

  /** Where the extension starts, its dot included, when there is a usable
      one: something before it, and less than half a component long. */
  function ExtensionAt(name: string, windows: bool): (k: nat)
    ensures k <= |name|
    ensures k < |name| ==> 0 < k && name[k] == '.'
  {
    var dot := LastIndexOf(name, '.');
    if 0 < dot < |name| && Length(name[dot + 1..], windows) + 1 < COMPONENT_LIMIT / 2 then dot else |name|
  }

  function Suffix(name: string, id: string, digits: nat, windows: bool): string
    requires IsId(id) && digits <= FULL_ID
  {
    "-" + id[..digits] + name[ExtensionAt(name, windows)..]
  }

  lemma {:induction false} AsciiLength(s: string, windows: bool)
    requires forall k :: 0 <= k < |s| ==> (s[k] as int) < 0x80
    ensures Length(s, windows) == |s|
  {
    if s != [] {
      AsciiLength(s[..|s| - 1], windows);
    }
  }

  lemma SuffixIsShort(name: string, id: string, digits: nat, windows: bool)
    requires IsId(id) && digits <= FULL_ID
    ensures Length(Suffix(name, id, digits, windows), windows) < 1 + FULL_ID + COMPONENT_LIMIT / 2
  {
    var at := ExtensionAt(name, windows);
    var extension := name[at..];
    var marked := "-" + id[..digits];
    AsciiLength(marked, windows);
    LengthAdds(marked, extension, windows);
    if at < |name| {
      assert extension == "." + name[at + 1..];
      AsciiLength(".", windows);
      LengthAdds(".", name[at + 1..], windows);
    }
  }

  /** The name made from the first `digits` of the id. */
  function IdName(name: string, id: string, digits: nat, windows: bool): string
    requires IsId(id) && digits <= FULL_ID
  {
    SuffixIsShort(name, id, digits, windows);
    Tailed(name[..ExtensionAt(name, windows)], Suffix(name, id, digits, windows), windows)
  }

  /** As much of `stem` as fits `room`. */
  function Cap(stem: string, room: nat, windows: bool): (cap: string)
    ensures Length(cap, windows) <= room
  {
    CappedFits(stem, room, "", windows);
    CappedName(stem, room, "", windows)
  }

  /** As much of `stem` as leaves room for `tail`, and `tail`: it fits, and
      ends in `tail`. */
  function Tailed(stem: string, tail: string, windows: bool): (r: string)
    requires Length(tail, windows) <= COMPONENT_LIMIT
    ensures Length(r, windows) <= COMPONENT_LIMIT && EndsWith(r, tail)
  {
    var cap := Cap(stem, COMPONENT_LIMIT - Length(tail, windows), windows);
    BothFit(cap, tail, windows);
    cap + tail
  }

  predicate OwnFits(name: string, windows: bool, taken: string -> bool) {
    Length(name, windows) <= COMPONENT_LIMIT && !taken(name)
  }

  /** The names one input tries, by how much of the id they take. */
  function IdNames(name: string, id: string, windows: bool): nat -> string
    requires IsId(id)
  {
    (digits: nat) => IdName(name, id, if digits <= FULL_ID then digits else FULL_ID, windows)
  }

  /** The first of the tries from `digits` on that is free, else the full one. */
  function FromDigits(tries: nat -> string, digits: nat, taken: string -> bool): string
    requires digits <= FULL_ID
    decreases FULL_ID - digits
  {
    if digits == FULL_ID || !taken(tries(digits)) then tries(digits) else FromDigits(tries, digits + 1, taken)
  }

  function EntryName(source: string, id: string, windows: bool, taken: string -> bool): string
    requires IsId(id)
  {
    var name := OwnName(source);
    if OwnFits(name, windows, taken) then name else FromDigits(IdNames(name, id, windows), SHORT_ID, taken)
  }

  /** One digit more of the id while the name is taken. */
  method ExtendId(tries: nat -> string, taken: string -> bool) returns (r: string)
    ensures r == FromDigits(tries, SHORT_ID, taken)
  {
    var digits := SHORT_ID;
    while digits < FULL_ID && taken(tries(digits))
      invariant digits <= FULL_ID
      invariant FromDigits(tries, SHORT_ID, taken) == FromDigits(tries, digits, taken)
    {
      digits := digits + 1;
    }
    r := tries(digits);
  }

  method EntryBasename(source: string, id: string, windows: bool, taken: string -> bool) returns (r: string)
    requires IsId(id)
    ensures r == EntryName(source, id, windows, taken)
  {
    var name := OwnName(source);
    if OwnFits(name, windows, taken) {
      return name;
    }
    r := ExtendId(IdNames(name, id, windows), taken);
  }

  // ---- What every name keeps ----

  lemma BothFit(cap: string, tail: string, windows: bool)
    requires Length(cap, windows) + Length(tail, windows) <= COMPONENT_LIMIT
    ensures Length(cap + tail, windows) <= COMPONENT_LIMIT && EndsWith(cap + tail, tail)
  {
    EndsInTail(cap, tail, windows);
  }

  /** No id name is too long, and each ends as the source's own name does
      where that has an extension to keep. */
  lemma IdNameFits(name: string, id: string, digits: nat, windows: bool)
    requires IsId(id) && digits <= FULL_ID
    ensures var r := IdName(name, id, digits, windows);
      && Length(r, windows) <= COMPONENT_LIMIT
      && EndsWith(r, Suffix(name, id, digits, windows))
  {
    SuffixIsShort(name, id, digits, windows);
  }

  lemma EndsInTail(stem: string, tail: string, windows: bool)
    ensures EndsWith(stem + tail, tail) && Length(stem + tail, windows) == Length(stem, windows) + Length(tail, windows)
  {
    LengthAdds(stem, tail, windows);
    assert (stem + tail)[|stem|..] == tail;
  }

  predicate EndsWith(s: string, tail: string) {
    |tail| <= |s| && s[|s| - |tail|..] == tail
  }

  /** What comes out is one of the tries. */
  lemma {:induction false} FromDigitsIsTry(tries: nat -> string, digits: nat, taken: string -> bool) returns (d: nat)
    requires digits <= FULL_ID
    ensures digits <= d <= FULL_ID && FromDigits(tries, digits, taken) == tries(d)
    decreases FULL_ID - digits
  {
    d := digits;
    if digits < FULL_ID && taken(tries(digits)) {
      d := FromDigitsIsTry(tries, digits + 1, taken);
    }
  }

  /** Every name fits one component, keeps a usable extension, and is the
      source's own or ends in at least eight digits of the id. */
  lemma EntryNameFits(source: string, id: string, windows: bool, taken: string -> bool)
    requires IsId(id)
    ensures var r, name := EntryName(source, id, windows, taken), OwnName(source);
      && Length(r, windows) <= COMPONENT_LIMIT
      && EndsWith(r, name[ExtensionAt(name, windows)..])
      && (r == name || exists d :: SHORT_ID <= d <= FULL_ID && EndsWith(r, Suffix(name, id, d, windows)))
  {
    var name := OwnName(source);
    if !OwnFits(name, windows, taken) {
      var d := FromDigitsIsTry(IdNames(name, id, windows), SHORT_ID, taken);
      IdNameFits(name, id, d, windows);
    }
  }

  /** Nothing the input could be called is left. */
  predicate AllTaken(source: string, id: string, windows: bool, taken: string -> bool)
    requires IsId(id)
  {
    && !OwnFits(OwnName(source), windows, taken)
    && forall d :: SHORT_ID <= d <= FULL_ID ==> taken(IdNames(OwnName(source), id, windows)(d))
  }

  lemma {:induction false} FromDigitsTaken(tries: nat -> string, digits: nat, taken: string -> bool)
    requires digits <= FULL_ID
    ensures taken(FromDigits(tries, digits, taken)) <==> forall d :: digits <= d <= FULL_ID ==> taken(tries(d))
    decreases FULL_ID - digits
  {
    if digits < FULL_ID && taken(tries(digits)) {
      FromDigitsTaken(tries, digits + 1, taken);
    }
  }

  /** The name that comes out was taken only when every name tried was. */
  lemma TakenOnlyWhenAllAre(source: string, id: string, windows: bool, taken: string -> bool)
    requires IsId(id)
    ensures taken(EntryName(source, id, windows, taken)) <==> AllTaken(source, id, windows, taken)
  {
    if !OwnFits(OwnName(source), windows, taken) {
      FromDigitsTaken(IdNames(OwnName(source), id, windows), SHORT_ID, taken);
    }
  }

  // ---- Every input of a Project ----

  datatype Input = Input(source: string, id: string)

  ghost predicate AllIds(inputs: seq<Input>) {
    forall k :: 0 <= k < |inputs| ==> IsId(inputs[k].id)
  }

  function KeysOf(names: seq<string>, key: string -> string): (keys: set<string>)
    ensures forall k :: k in keys <==> exists i :: 0 <= i < |names| && key(names[i]) == k
  {
    set i | 0 <= i < |names| :: key(names[i])
  }

  /** The names so far and those taken before them hold `name`'s key. */
  function Held(names: seq<string>, before: set<string>, key: string -> string): string -> bool {
    name => key(name) in before + KeysOf(names, key)
  }

  /** The k-th input is named, seeing the names before it. */
  ghost predicate NamedAt(inputs: seq<Input>, names: seq<string>, k: nat, before: set<string>, windows: bool, key: string -> string)
    requires k < |names| && k < |inputs| && IsId(inputs[k].id)
  {
    names[k] == EntryName(inputs[k].source, inputs[k].id, windows, Held(names[..k], before, key))
  }

  /** Each input is named in turn. */
  ghost predicate NamedInTurn(inputs: seq<Input>, names: seq<string>, before: set<string>, windows: bool, key: string -> string)
    requires AllIds(inputs)
  {
    |names| == |inputs| && forall k :: 0 <= k < |names| ==> NamedAt(inputs, names, k, before, windows, key)
  }

  /** Name the inputs in turn, up to the first whose name is no entry name;
      `usable` says which names are. */
  method AssignNames(inputs: seq<Input>, before: set<string>, windows: bool, key: string -> string, usable: string -> bool)
    returns (ok: bool, names: seq<string>)
    requires AllIds(inputs)
    ensures |names| <= |inputs| && NamedInTurn(inputs[..|names|], names, before, windows, key)
    ensures forall k :: 0 <= k < |names| ==> usable(names[k])
    ensures ok <==> |names| == |inputs|
    ensures !ok ==>
              var next := inputs[|names|];
              !usable(EntryName(next.source, next.id, windows, Held(names, before, key)))
  {
    names := [];
    var taken := before;
    for i := 0 to |inputs|
      invariant |names| == i && taken == before + KeysOf(names, key)
      invariant NamedInTurn(inputs[..i], names, before, windows, key)
      invariant forall k :: 0 <= k < i ==> usable(names[k])
    {
      ghost var was := names;
      var holds := name => key(name) in taken;
      assert holds == Held(names, before, key);
      var name := EntryBasename(inputs[i].source, inputs[i].id, windows, holds);
      if !usable(name) {
        return false, names;
      }
      taken := taken + {key(name)};
      names := names + [name];
      OneMoreNamed(inputs, was, name, before, windows, key);
      KeysGrow(was, name, key);
    }
    ok := true;
  }

  lemma OneMoreNamed(inputs: seq<Input>, names: seq<string>, name: string, before: set<string>, windows: bool, key: string -> string)
    requires AllIds(inputs) && |names| < |inputs| && NamedInTurn(inputs[..|names|], names, before, windows, key)
    requires var next := inputs[|names|];
      name == EntryName(next.source, next.id, windows, Held(names, before, key))
    ensures NamedInTurn(inputs[..|names| + 1], names + [name], before, windows, key)
  {
    var more, named := names + [name], inputs[..|names| + 1];
    forall k | 0 <= k < |more| ensures NamedAt(named, more, k, before, windows, key) {
      if k < |names| {
        assert NamedAt(inputs[..|names|], names, k, before, windows, key);
        assert more[..k] == names[..k];
      } else {
        assert more[..k] == names;
      }
    }
  }

  lemma KeysGrow(names: seq<string>, name: string, key: string -> string)
    ensures KeysOf(names + [name], key) == KeysOf(names, key) + {key(name)}
  {
    var more := names + [name];
    forall k | k in KeysOf(names, key) + {key(name)} ensures k in KeysOf(more, key) {
      if k in KeysOf(names, key) {
        var i :| 0 <= i < |names| && key(names[i]) == k;
        assert key(more[i]) == k;
      } else {
        assert key(more[|names|]) == k;
      }
    }
  }

  /** No two names share a key, and none has a key taken before. */
  ghost predicate AllDistinct(names: seq<string>, before: set<string>, key: string -> string) {
    && (forall i, j :: 0 <= i < j < |names| ==> key(names[i]) != key(names[j]))
    && (forall i :: 0 <= i < |names| ==> key(names[i]) !in before)
  }

  /** The k-th name shares its key with one before it. */
  ghost predicate Repeats(names: seq<string>, k: nat, before: set<string>, key: string -> string)
    requires k < |names|
  {
    key(names[k]) in before || exists i :: 0 <= i < k && key(names[i]) == key(names[k])
  }

  lemma HeldIsRepeats(names: seq<string>, k: nat, before: set<string>, key: string -> string)
    requires k < |names|
    ensures Held(names[..k], before, key)(names[k]) <==> Repeats(names, k, before, key)
  {
    assert forall i :: 0 <= i < k ==> names[..k][i] == names[i];
  }

  lemma RepeatsWhenAllTaken(inputs: seq<Input>, names: seq<string>, k: nat, before: set<string>, windows: bool, key: string -> string)
    requires k < |names| && k < |inputs| && IsId(inputs[k].id) && NamedAt(inputs, names, k, before, windows, key)
    ensures Repeats(names, k, before, key) <==> AllTaken(inputs[k].source, inputs[k].id, windows, Held(names[..k], before, key))
  {
    HeldIsRepeats(names, k, before, key);
    TakenOnlyWhenAllAre(inputs[k].source, inputs[k].id, windows, Held(names[..k], before, key));
  }

  lemma DistinctIsNoRepeat(names: seq<string>, before: set<string>, key: string -> string)
    ensures AllDistinct(names, before, key) <==> forall k :: 0 <= k < |names| ==> !Repeats(names, k, before, key)
  {
    if forall k :: 0 <= k < |names| ==> !Repeats(names, k, before, key) {
      forall i, j | 0 <= i < j < |names| ensures key(names[i]) != key(names[j]) {
        assert !Repeats(names, j, before, key);
      }
      forall i | 0 <= i < |names| ensures key(names[i]) !in before {
        assert !Repeats(names, i, before, key);
      }
    }
  }

  /** Names given in turn are pairwise different exactly when no input found
      every name it could have taken. */
  lemma NamesAreDistinct(inputs: seq<Input>, names: seq<string>, before: set<string>, windows: bool, key: string -> string)
    requires AllIds(inputs) && NamedInTurn(inputs, names, before, windows, key)
    ensures AllDistinct(names, before, key) <==>
      forall k :: 0 <= k < |names| ==> !AllTaken(inputs[k].source, inputs[k].id, windows, Held(names[..k], before, key))
  {
    DistinctIsNoRepeat(names, before, key);
    forall k | 0 <= k < |names|
      ensures Repeats(names, k, before, key) <==> AllTaken(inputs[k].source, inputs[k].id, windows, Held(names[..k], before, key))
    {
      assert NamedAt(inputs, names, k, before, windows, key);
      RepeatsWhenAllTaken(inputs, names, k, before, windows, key);
    }
  }
}
