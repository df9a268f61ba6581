/** What the names and texts made elsewhere look like, in plain terms: how an
    entry's name is put together, what a kept file is called, and what the
    sanitizer and the key's escaping do to each character. */
module NameMeaning {
  import opened Wrappers
  import opened Text
  import EntryNames
  import KeptNames
  import CaptureKey
  import SafeFilename
  import PathTemplates
  import TemplateResolver

  // ---- Entry names ----

  /** The extension an entry keeps starts at the last dot, if something comes
      before it and it takes fewer than 127 units. */
  predicate KeepsExtension(name: string, dot: nat, windows: bool) {
    && 0 < dot < |name| && name[dot] == '.' && (forall k :: dot < k < |name| ==> name[k] != '.')
    && Length(name[dot..], windows) < 127
  }

  lemma FromDot(name: string, dot: nat, windows: bool)
    requires dot < |name| && name[dot] == '.'
    ensures Length(name[dot..], windows) == 1 + Length(name[dot + 1..], windows)
  {
    assert name[dot..] == "." + name[dot + 1..];
    EntryNames.AsciiLength(".", windows);
    LengthAdds(".", name[dot + 1..], windows);
  }

  lemma LastIs(s: string, c: char, k: nat)
    requires k < |s| && s[k] == c && forall i :: k < i < |s| ==> s[i] != c
    ensures LastIndexOf(s, c) == k
  {
  }

  lemma ExtensionSays(name: string, windows: bool)
    ensures var at := EntryNames.ExtensionAt(name, windows);
      if exists dot :: KeepsExtension(name, dot, windows) then KeepsExtension(name, at, windows) else at == |name|
  {
    var last := LastIndexOf(name, '.');
    if last < |name| {
      FromDot(name, last, windows);
    }
    assert last < |name| && EntryNames.ExtensionAt(name, windows) == last ==> KeepsExtension(name, last, windows);
    if dot: nat :| KeepsExtension(name, dot, windows) {
      LastIs(name, '.', dot);
    }
  }

  predicate IsEnd(c: char) {
    c == '-' || c == '.'
  }

  /** The first `m` characters are the most that fit `room`. */
  predicate MostFit(s: string, m: nat, room: nat, windows: bool) {
    m < |s| && Length(s[..m], windows) <= room < Length(s[..m + 1], windows)
  }

  /** `start` is all of `stem` when that fits `room`, else the most of it that
      does, no dash or dot left at its end. */
  ghost predicate IsStart(start: string, stem: string, room: nat, windows: bool) {
    && start <= stem
    && if Length(stem, windows) <= room then start == stem
       else
         && (start != [] ==> !IsEnd(start[|start| - 1]))
         && exists m :: |start| <= m && MostFit(stem, m, room, windows) && forall i :: |start| <= i < m ==> IsEnd(stem[i])
  }

  lemma {:induction false} TrimEndDrops(s: string)
    ensures forall i :: |EntryNames.TrimEnd(s)| <= i < |s| ==> IsEnd(s[i])
  {
    if s != [] && IsEnd(s[|s| - 1]) {
      TrimEndDrops(s[..|s| - 1]);
      assert forall i :: |EntryNames.TrimEnd(s)| <= i < |s| - 1 ==> s[i] == s[..|s| - 1][i];
    }
  }

  lemma CapIsStart(stem: string, room: nat, windows: bool)
    ensures IsStart(EntryNames.Cap(stem, room, windows), stem, room, windows)
  {
    if Length(stem, windows) > room {
      assert EntryNames.Room(room, "", windows) == room;
      var m := EntryNames.FitCount(stem, room, windows);
      assert stem[..|stem|] == stem;
      TrimEndDrops(stem[..m]);
      var start := EntryNames.TrimEnd(stem[..m]);
      assert start == stem[..m][..|start|] == stem[..|start|];
      assert EntryNames.Cap(stem, room, windows) == start + "" == start;
      assert MostFit(stem, m, room, windows);
    }
  }

  /** A name made from the id is the start of the source's own, a dash, that
      many digits of the id and the extension, and takes up to 255 units. */
  lemma IdNameSays(name: string, id: string, digits: nat, windows: bool) returns (start: string, room: nat)
    requires EntryNames.IsId(id) && digits <= 32
    ensures var at := EntryNames.ExtensionAt(name, windows);
      TailedSays(EntryNames.IdName(name, id, digits, windows), start, room, name[..at], "-" + id[..digits] + name[at..], windows)
  {
    EntryNames.SuffixIsShort(name, id, digits, windows);
    var tail := EntryNames.Suffix(name, id, digits, windows);
    room := 255 - Length(tail, windows);
    start := TailedIs(name[..EntryNames.ExtensionAt(name, windows)], tail, room, windows);
  }

  ghost predicate TailedSays(r: string, start: string, room: nat, stem: string, tail: string, windows: bool) {
    r == start + tail && Length(tail, windows) + room == 255 && IsStart(start, stem, room, windows)
  }

  lemma TailedIs(stem: string, tail: string, room: nat, windows: bool) returns (start: string)
    requires Length(tail, windows) + room == 255
    ensures TailedSays(EntryNames.Tailed(stem, tail, windows), start, room, stem, tail, windows)
  {
    start := EntryNames.Cap(stem, room, windows);
    CapIsStart(stem, room, windows);
    TailFollows(stem, tail, room, windows);
  }

  lemma TailFollows(stem: string, tail: string, room: nat, windows: bool)
    requires Length(tail, windows) + room == 255
    ensures EntryNames.Tailed(stem, tail, windows) == EntryNames.Cap(stem, room, windows) + tail
  {
  }

  /** The digits of the id an entry's name takes are the fewest, from eight
      on, that make it free, or all 32. */
  predicate FewestFree(tries: nat -> string, d: nat, taken: string -> bool) {
    && 8 <= d <= 32 && (d == 32 || !taken(tries(d)))
    && forall e :: 8 <= e < d ==> taken(tries(e))
  }

  lemma {:induction false} FewestFrom(tries: nat -> string, digits: nat, taken: string -> bool) returns (d: nat)
    requires 8 <= digits <= 32 && forall e :: 8 <= e < digits ==> taken(tries(e))
    ensures FewestFree(tries, d, taken) && EntryNames.FromDigits(tries, digits, taken) == tries(d)
    decreases 32 - digits
  {
    d := digits;
    if digits < 32 && taken(tries(digits)) {
      d := FewestFrom(tries, digits + 1, taken);
    }
  }

  /** An entry is named as its source where that takes up to 255 units and is
      free, else with the fewest digits of its id. */
  lemma EntryNameSays(source: string, id: string, windows: bool, taken: string -> bool)
    requires EntryNames.IsId(id)
    ensures var name, r := EntryNames.OwnName(source), EntryNames.EntryName(source, id, windows, taken);
      if Length(name, windows) <= 255 && !taken(name) then r == name
      else exists d :: FewestFree(EntryNames.IdNames(name, id, windows), d, taken) && r == EntryNames.IdName(name, id, d, windows)
  {
    var name := EntryNames.OwnName(source);
    if !(Length(name, windows) <= 255 && !taken(name)) {
      var d := FewestFrom(EntryNames.IdNames(name, id, windows), 8, taken);
      assert EntryNames.IdNames(name, id, windows)(d) == EntryNames.IdName(name, id, d, windows);
    }
  }

  /** A source whose name is all dots and blanks is called entry; any other
      keeps what stands between them. */
  lemma OwnNameSays(source: string)
    ensures var own := EntryNames.OwnName(source);
      if forall k :: 0 <= k < |source| ==> SafeFilename.IsEdge(source[k]) then own == "entry"
      else IsBetween(source, own, SafeFilename.IsEdge)
  {
    TrimSays(source, SafeFilename.IsEdge);
  }

  /** `t` is what stands in `s` from the first character not cut to the
      last. */
  ghost predicate IsBetween(s: string, t: string, cut: char -> bool) {
    && t != [] && !cut(t[0]) && !cut(t[|t| - 1])
    && exists i, j :: Stands(s, t, i, j, cut)
  }

  predicate AllCut(s: string, cut: char -> bool) {
    forall k :: 0 <= k < |s| ==> cut(s[k])
  }

  predicate Stands(s: string, t: string, i: nat, j: nat, cut: char -> bool) {
    i <= j <= |s| && t == s[i..j] && AllCut(s[..i], cut) && AllCut(s[j..], cut)
  }

  lemma {:induction false} TrimStands(s: string, cut: char -> bool) returns (i: nat, j: nat)
    ensures Stands(s, Trim(s, cut), i, j, cut)
  {
    if s != [] && cut(s[0]) {
      i, j := TrimStands(s[1..], cut);
      CutBefore(s, i, j, cut);
      i, j := i + 1, j + 1;
    } else if s != [] && cut(s[|s| - 1]) {
      i, j := TrimStands(s[..|s| - 1], cut);
      CutAfter(s, i, j, cut);
    } else {
      i, j := 0, |s|;
    }
  }

  lemma CutBefore(s: string, i: nat, j: nat, cut: char -> bool)
    requires s != [] && cut(s[0]) && i <= j <= |s| - 1 && AllCut(s[1..][..i], cut) && AllCut(s[1..][j..], cut)
    ensures s[1..][i..j] == s[i + 1..j + 1] && AllCut(s[..i + 1], cut) && AllCut(s[j + 1..], cut)
  {
    assert s[..i + 1] == [s[0]] + s[1..][..i];
    assert s[j + 1..] == s[1..][j..];
  }

  lemma CutAfter(s: string, i: nat, j: nat, cut: char -> bool)
    requires s != [] && cut(s[|s| - 1]) && i <= j <= |s| - 1
    requires AllCut(s[..|s| - 1][..i], cut) && AllCut(s[..|s| - 1][j..], cut)
    ensures s[..|s| - 1][i..j] == s[i..j] && AllCut(s[..i], cut) && AllCut(s[j..], cut)
  {
    assert s[..i] == s[..|s| - 1][..i];
    assert s[j..] == s[..|s| - 1][j..] + [s[|s| - 1]];
  }

  lemma TrimSays(s: string, cut: char -> bool)
    ensures if AllCut(s, cut) then Trim(s, cut) == [] else IsBetween(s, Trim(s, cut), cut)
  {
    var i, j := TrimStands(s, cut);
  }

  // ---- Kept names ----

  /** From its second try on a kept name carries the number before its
      extension, or at its end when no dot follows its first character. */
  lemma KeptNameSays(stem: string, extension: string, number: nat)
    requires stem != [] && number >= 2
    requires if extension == [] then forall k :: 0 < k < |stem| ==> stem[k] != '.'
             else extension[0] == '.' && forall k :: 0 < k < |extension| ==> extension[k] != '.'
    ensures KeptNames.KeptName(stem + extension, number) == stem + "-" + Decimal(number) + extension
    ensures KeptNames.KeptName(stem + extension, 1) == stem + extension
  {
    var name := stem + extension;
    if extension == [] {
      assert name == stem;
    } else {
      assert forall k :: |stem| < k < |name| ==> name[k] == extension[k - |stem|];
      LastIs(name, '.', |stem|);
    }
    assert KeptNames.ExtensionAt(name) == |stem|;
    assert name[..|stem|] == stem && name[|stem|..] == extension;
  }

  // ---- Sanitizing and escaping, character by character ----

  lemma {:induction false} StripAdds(a: string, b: string)
    ensures SafeFilename.Strip(a + b) == SafeFilename.Strip(a) + SafeFilename.Strip(b)
  {
    if a == [] {
      assert a + b == b;
    } else {
      assert (a + b)[1..] == a[1..] + b;
      StripAdds(a[1..], b);
    }
  }

  /** A control is dropped, any other character kept. */
  lemma StripSays(c: char)
    ensures SafeFilename.Strip([c]) == if SafeFilename.Disallowed(c) then [] else [c]
  {
    assert [c][1..] == [];
  }

  /** Dots alone are refused; anything else is judged as what stands between
      its first and last character that is no dot or blank, the reserved ones
      replaced. */
  lemma SanitizeSays(u: SafeFilename.Unicode, token: string, raw: string)
    ensures var kept, r := SafeFilename.Strip(u.compose(raw)), SafeFilename.Sanitize(u, token, raw);
      if kept == "." || kept == ".." then r == SafeFilename.Refused(SafeFilename.PathTraversal(kept))
      else
        var s := Trim(SafeFilename.Substituted(kept), SafeFilename.IsEdge);
        IsJudged(s => SafeFilename.Reserved(u, s), u.mixed, token, raw, s, r)
  {
    var s := Trim(SafeFilename.Substituted(SafeFilename.Strip(u.compose(raw))), SafeFilename.IsEdge);
    JudgeSays(s => SafeFilename.Reserved(u, s), u.mixed, token, raw, s);
  }

  /** Nothing left, a device name, mixed scripts, or safe: the first that
      fits. */
  predicate IsJudged(reserved: string -> bool, mixed: string -> bool, token: string, raw: string, s: string, r: SafeFilename.Sanitized) {
    match r
    case Safe(t) => t == s && s != [] && !reserved(s) && !mixed(s)
    case Refused(PathTraversal(_)) => false
    case Refused(EmptyAfterSanitize(of, value)) => s == [] && of == token && value == raw
    case Refused(ReservedName(t)) => t == s && s != [] && reserved(s)
    case Refused(UnicodeConfusable(of, t)) => t == s && s != [] && !reserved(s) && mixed(s) && of == token
  }

  lemma JudgeSays(reserved: string -> bool, mixed: string -> bool, token: string, raw: string, s: string)
    ensures IsJudged(reserved, mixed, token, raw, s, SafeFilename.Judge(reserved, mixed, token, raw, s))
  {
  }

  /** The device names: four, and two stems with a digit or a small one
      above. */
  lemma DevicesAre(name: string)
    ensures SafeFilename.IsDevice(name) <==>
      || name in {"CON", "PRN", "AUX", "NUL"}
      || exists mark :: mark in "123456789\U{B9}\U{B2}\U{B3}" && (name == "COM" + [mark] || name == "LPT" + [mark])
  {
    var marks := "123456789\U{B9}\U{B2}\U{B3}";
    if |name| == 4 {
      var mark := name[3];
      assert name == name[..3] + [mark];
      MarksAre(mark);
    }
    forall mark | mark in marks && (name == "COM" + [mark] || name == "LPT" + [mark])
      ensures |name| == 4 && name[3] == mark && (name[..3] == "COM" || name[..3] == "LPT")
    {
      MarksAre(mark);
    }
  }

  lemma MarksAre(c: char)
    ensures c in "123456789\U{B9}\U{B2}\U{B3}" <==> '1' <= c <= '9' || c == '\U{B9}' || c == '\U{B2}' || c == '\U{B3}'
  {
    var marks := "123456789\U{B9}\U{B2}\U{B3}";
    assert marks[0] == '1' && marks[1] == '2' && marks[2] == '3' && marks[3] == '4' && marks[4] == '5';
    assert marks[5] == '6' && marks[6] == '7' && marks[7] == '8' && marks[8] == '9';
    assert marks[9] == '\U{B9}' && marks[10] == '\U{B2}' && marks[11] == '\U{B3}';
  }

  lemma {:induction false} EscapeAdds(a: string, b: string)
    ensures CaptureKey.Escape(a + b) == CaptureKey.Escape(a) + CaptureKey.Escape(b)
  {
    if a == [] {
      assert a + b == b;
    } else {
      assert (a + b)[1..] == a[1..] + b;
      EscapeAdds(a[1..], b);
    }
  }

  lemma EscapeSays(c: char)
    ensures CaptureKey.Escape([c]) == match c { case '%' => "%25" case '|' => "%7C" case _ => [c] }
  {
    assert [c][1..] == [];
  }

  /** Every key opens with its version. */
  lemma KeyOpens(fields: seq<CaptureKey.Field>)
    ensures "capture-v1" <= CaptureKey.Encode(fields)
  {
  }

  // ---- Template values ----

  /** Only the frame type is put in lower case; where the catalog holds no
      value the fallback stands. */
  lemma RawValueSays(u: SafeFilename.Unicode, bundle: map<string, string>, name: string)
    requires name in PathTemplates.V1
    ensures var x := TemplateResolver.Product(u, bundle);
      var value := if name in bundle && bundle[name] != [] then bundle[name] else PathTemplates.V1[name].fallback;
      TemplateResolver.RawValue(x, name) == if name == "frame_type" then u.lower(value) else value
  {
    PathTemplates.V1Holds(name);
  }

  /** A token shows its fallback where it has no value or nothing usable is
      left of it; a value that is a device name, dots or mixed scripts fails. */
  lemma ResolvedSays(x: TemplateResolver.Context, name: string)
    requires TemplateResolver.Sound(x) && name in x.registry
    ensures var r, cleaned := TemplateResolver.ResolveOneToken(x, name), x.clean(name, TemplateResolver.RawValue(x, name));
      match cleaned
      case Safe(text) => r.Done? && r.value.text == text && (r.value.missing <==> !TemplateResolver.Given(x, name))
      case Refused(EmptyAfterSanitize(_, _)) => r.Done? && r.value.missing && r.value.text == x.registry[name].fallback
      case Refused(PathTraversal(segment)) => r.Failed? && r.error.Traversal? && r.error.segment == segment
      case Refused(ReservedName(segment)) => r.Failed? && r.error.DeviceName? && r.error.segment == segment
      case Refused(UnicodeConfusable(token, value)) => r.Failed? && r.error.Confusable? && r.error.token == token
  {
  }

  /** A registered token of whose value nothing usable is left, or that has
      none. */
  predicate FallsBack(x: TemplateResolver.Context, name: string) {
    name in x.registry &&
    match x.clean(name, TemplateResolver.RawValue(x, name))
    case Safe(_) => !TemplateResolver.Given(x, name)
    case Refused(error) => error.EmptyAfterSanitize?
  }

  /** What is reported missing is what falls back, and nothing else. */
  lemma {:induction false} MissingSays(x: TemplateResolver.Context, names: seq<string>)
    requires TemplateResolver.Sound(x)
    ensures forall n :: n in TemplateResolver.Missing(x, names) <==> n in names && FallsBack(x, n)
  {
    if names != [] {
      MissingSays(x, names[1..]);
      assert TemplateResolver.IsMissing(x, names[0]) <==> FallsBack(x, names[0]);
    }
  }
}
