/** Destination templates: the check that accepts a template and the resolver
    that renders it each scan it for placeholders. */
module PathTemplates {
  import opened Wrappers
  import opened Text
  import opened SafeFilename

  // ---- The registry ----

  datatype Transform = SanitizeOnly | DateIso | Lower

  datatype Definition = Definition(source: string, fallback: string, transform: Transform)

  type Registry = map<string, Definition>

  /** Text that neither ends a level nor opens or closes a placeholder. */
  predicate Unmarked(s: string) {
    forall k :: 0 <= k < |s| ==> s[k] != '/' && s[k] != '{' && s[k] != '}'
  }

  /** Every name and every fallback is unmarked, and no fallback is empty. */
  ghost predicate Usable(r: Registry) {
    forall n :: n in r ==> Unmarked(n) && Unmarked(r[n].fallback) && r[n].fallback != []
  }

  /** The first version's vocabulary. */
  const V1: Registry := map[
    "target" := Definition("target", "unclassified", SanitizeOnly),
    "filter" := Definition("filter", "nofilter", SanitizeOnly),
    "date" := Definition("date", "undated", DateIso),
    "frame_type" := Definition("frame_type", "unknown", Lower),
    "camera" := Definition("camera", "unknown-camera", SanitizeOnly),
    "exposure" := Definition("exposure", "unknown-exposure", SanitizeOnly),
    "gain" := Definition("gain", "unknown-gain", SanitizeOnly),
    "binning" := Definition("binning", "1x1", SanitizeOnly),
    "set_temp" := Definition("set_temp", "untempered", SanitizeOnly)]

  predicate IsName(n: string) {
    || n == "target" || n == "filter" || n == "date" || n == "frame_type" || n == "camera"
    || n == "exposure" || n == "gain" || n == "binning" || n == "set_temp"
  }

  predicate IsFallback(f: string) {
    || f == "unclassified" || f == "nofilter" || f == "undated" || f == "unknown" || f == "unknown-camera"
    || f == "unknown-exposure" || f == "unknown-gain" || f == "1x1" || f == "untempered"
  }

  lemma V1Holds(n: string)
    ensures n in V1 <==> IsName(n)
    ensures n in V1 ==> IsFallback(V1[n].fallback)
  {
  }

  lemma NameIsUnmarked(n: string)
    ensures IsName(n) ==> Unmarked(n)
  {
  }

  lemma FallbackIsUnmarked(f: string)
    ensures IsFallback(f) ==> Unmarked(f) && f != []
  {
  }

  lemma V1IsSound()
    ensures Usable(V1)
  {
    forall n | n in V1 ensures Unmarked(n) && Unmarked(V1[n].fallback) && V1[n].fallback != [] {
      V1Holds(n);
      NameIsUnmarked(n);
      FallbackIsUnmarked(V1[n].fallback);
    }
  }

  // ---- The two scans ----

  function Closing(before: string, name: string, rest: string): string {
    before + ['{'] + name + ['}'] + rest
  }

  function Opening(before: string, after: string): string {
    before + ['{'] + after
  }

  /** Up to the first placeholder: none opens, one opens and never closes, or
      one is found. */
  datatype Next = Plain | Unclosed(before: string, after: string) | Closed(before: string, name: string, rest: string)

  function NextSlot(s: string): (n: Next)
    ensures n.Plain? ==> '{' !in s
    ensures n.Unclosed? ==> s == Opening(n.before, n.after) && '{' !in n.before && '}' !in n.after
    ensures n.Closed? ==> s == Closing(n.before, n.name, n.rest) && '{' !in n.before && '}' !in n.name
  {
    var start := IndexOf(s, '{');
    if start == |s| then Plain
    else
      var before, after := s[..start], s[start + 1..];
      var end := IndexOf(after, '}');
      CutAt(s, start);
      if end == |after| then Unclosed(before, after)
      else
        var name, rest := after[..end], after[end + 1..];
        CutAt(after, end);
        ClosingOpens(before, name, rest);
        Closed(before, name, rest)
  }

  lemma CutAt(s: string, k: nat)
    requires k < |s|
    ensures s == s[..k] + [s[k]] + s[k + 1..]
  {
  }

  lemma ClosingOpens(before: string, name: string, rest: string)
    ensures Closing(before, name, rest) == Opening(before, name + ['}'] + rest)
  {
  }

  lemma OpeningMoves(prefix: string, before: string, after: string, tail: string)
    ensures prefix + Opening(before, after) == Opening(prefix + before, after)
    ensures Opening(before, after) + tail == Opening(before, after + tail)
  {
  }

  lemma ClosingMoves(prefix: string, before: string, name: string, rest: string, tail: string)
    ensures prefix + Closing(before, name, rest) == Closing(prefix + before, name, rest)
    ensures Closing(before, name, rest) + tail == Closing(before, name, rest + tail)
  {
  }

  lemma NextIsPlain(s: string)
    requires '{' !in s
    ensures NextSlot(s) == Plain
  {
    assert IndexOf(s, '{') == |s|;
  }

  lemma NextIsUnclosed(before: string, after: string)
    requires '{' !in before && '}' !in after
    ensures NextSlot(Opening(before, after)) == Unclosed(before, after)
  {
    var s := Opening(before, after);
    assert s[..|before|] == before && s[|before| + 1..] == after;
    FirstIs(s, '{', |before|);
  }

  lemma NextIsClosed(before: string, name: string, rest: string)
    requires '{' !in before && '}' !in name
    ensures NextSlot(Closing(before, name, rest)) == Closed(before, name, rest)
  {
    var s := Closing(before, name, rest);
    var after := name + ['}'] + rest;
    assert s[..|before|] == before && s[|before| + 1..] == after;
    FirstIs(s, '{', |before|);
    assert after[..|name|] == name && after[|name| + 1..] == rest;
    FirstIs(after, '}', |name|);
  }

  /** The placeholders of a whole template, in order; an unterminated brace
      ends the scan. */
  function Tokens(s: string): seq<string>
    decreases |s|
  {
    var n := NextSlot(s);
    if n.Closed? then [n.name] + Tokens(n.rest) else []
  }

  datatype Piece = Literal(text: string) | Slot(name: string)

  function LiteralIf(text: string): seq<Piece> {
    if text == [] then [] else [Literal(text)]
  }

  /** What one level of a template is made of; an unterminated brace is
      literal to the end. */
  function Pieces(s: string): seq<Piece>
    decreases |s|
  {
    match NextSlot(s)
    case Plain => LiteralIf(s)
    case Unclosed(before, after) => LiteralIf(before) + [Literal(['{'] + after)]
    case Closed(before, name, rest) => LiteralIf(before) + [Slot(name)] + Pieces(rest)
  }

  function SlotNames(ps: seq<Piece>): seq<string> {
    if ps == [] then []
    else (if ps[0].Slot? then [ps[0].name] else []) + SlotNames(ps[1..])
  }

  function Written(ps: seq<Piece>): string {
    if ps == [] then []
    else (if ps[0].Slot? then ['{'] + ps[0].name + ['}'] else ps[0].text) + Written(ps[1..])
  }

  lemma LiteralFirst(text: string, ps: seq<Piece>)
    ensures SlotNames(LiteralIf(text) + ps) == SlotNames(ps)
    ensures Written(LiteralIf(text) + ps) == text + Written(ps)
  {
    if text == [] {
      assert LiteralIf(text) + ps == ps;
    } else {
      assert (LiteralIf(text) + ps)[1..] == ps;
    }
  }

  lemma SlotFirst(name: string, ps: seq<Piece>)
    ensures SlotNames([Slot(name)] + ps) == [name] + SlotNames(ps)
    ensures Written([Slot(name)] + ps) == ['{'] + name + ['}'] + Written(ps)
  {
    assert ([Slot(name)] + ps)[1..] == ps;
  }

  /** The resolver's scan of one level finds the validator's placeholders and
      drops nothing of the text. */
  lemma {:induction false} PiecesHoldAll(s: string)
    ensures SlotNames(Pieces(s)) == Tokens(s)
    ensures Written(Pieces(s)) == s
    decreases |s|
  {
    match NextSlot(s)
    case Plain =>
      LiteralFirst(s, []);
      assert LiteralIf(s) + [] == LiteralIf(s);
    case Unclosed(before, after) =>
      UnclosedHoldsAll(before, after);
    case Closed(before, name, rest) =>
      PiecesHoldAll(rest);
      ClosedHoldsAll(before, name, Pieces(rest));
  }

  lemma UnclosedHoldsAll(before: string, after: string)
    ensures var ps := LiteralIf(before) + [Literal(['{'] + after)];
      SlotNames(ps) == [] && Written(ps) == Opening(before, after)
  {
    var last := [Literal(['{'] + after)];
    LiteralFirst(before, last);
    assert last[1..] == [] && Written(last) == ['{'] + after;
    assert before + (['{'] + after) == Opening(before, after);
  }

  lemma ClosedHoldsAll(before: string, name: string, rest: seq<Piece>)
    ensures var ps := LiteralIf(before) + [Slot(name)] + rest;
      SlotNames(ps) == [name] + SlotNames(rest) && Written(ps) == Closing(before, name, Written(rest))
  {
    LiteralFirst(before, [Slot(name)] + rest);
    SlotFirst(name, rest);
    assert LiteralIf(before) + [Slot(name)] + rest == LiteralIf(before) + ([Slot(name)] + rest);
    ClosingMoves(before, [], name, Written(rest), []);
  }

  function LevelTokens(levels: seq<string>): seq<string> {
    if levels == [] then [] else Tokens(levels[0]) + LevelTokens(levels[1..])
  }

  // ---- Where the two scans agree ----

  predicate Slashless(names: seq<string>) {
    forall k :: 0 <= k < |names| ==> '/' !in names[k]
  }

  lemma TokensSkip(literal: string, rest: string)
    requires '{' !in literal
    ensures Tokens(literal + rest) == Tokens(rest)
  {
    match NextSlot(rest)
    case Plain =>
      NextIsPlain(literal + rest);
    case Unclosed(before, after) =>
      OpeningMoves(literal, before, after, []);
      NextIsUnclosed(literal + before, after);
    case Closed(before, name, after) =>
      ClosingMoves(literal, before, name, after, []);
      NextIsClosed(literal + before, name, after);
  }

  lemma TokensTake(before: string, name: string, rest: string)
    requires '{' !in before && '}' !in name
    ensures Tokens(Closing(before, name, rest)) == [name] + Tokens(rest)
  {
    NextIsClosed(before, name, rest);
  }

  lemma NoClosing(s: string)
    requires '}' !in s
    ensures Tokens(s) == []
  {
    var start := IndexOf(s, '{');
    if start < |s| {
      assert '}' !in s[start + 1..];
    }
  }

  /** The scan of a template either parts at a slash or takes the slash into a
      placeholder. */
  lemma {:induction false} TokensPart(level: string, tail: string)
    requires '/' !in level
    ensures var whole := Tokens(level + ['/'] + tail);
      Slashless(whole) ==> whole == Tokens(level) + Tokens(tail)
    decreases |level|
  {
    match NextSlot(level)
    case Plain =>
      TokensSkip(level + ['/'], tail);
    case Unclosed(before, after) =>
      SlashUnclosed(before, after, tail);
    case Closed(before, name, rest) =>
      TokensPart(rest, tail);
      TakenFirst(before, name, rest, tail);
  }

  lemma ClosingSlash(before: string, name: string, rest: string, tail: string)
    ensures Closing(before, name, rest) + ['/'] + tail == Closing(before, name, rest + ['/'] + tail)
  {
    calc {
      Closing(before, name, rest) + ['/'] + tail;
      Closing(before, name, rest) + (['/'] + tail);
      { ClosingMoves([], before, name, rest, ['/'] + tail); }
      Closing(before, name, rest + (['/'] + tail));
      { assert rest + (['/'] + tail) == rest + ['/'] + tail; }
      Closing(before, name, rest + ['/'] + tail);
    }
  }

  lemma TakenFirst(before: string, name: string, rest: string, tail: string)
    requires '{' !in before && '}' !in name
    ensures var whole := Tokens(Closing(before, name, rest) + ['/'] + tail);
      && whole == [name] + Tokens(rest + ['/'] + tail)
      && (Slashless(whole) ==> Slashless(Tokens(rest + ['/'] + tail)))
  {
    TokensTake(before, name, rest + ['/'] + tail);
    ClosingSlash(before, name, rest, tail);
    SlashlessTail([name], Tokens(rest + ['/'] + tail));
  }

  lemma SlashlessTail(a: seq<string>, b: seq<string>)
    ensures Slashless(a + b) <==> Slashless(a) && Slashless(b)
  {
    if Slashless(a + b) {
      forall k | 0 <= k < |a| ensures '/' !in a[k] { assert (a + b)[k] == a[k]; }
      forall k | 0 <= k < |b| ensures '/' !in b[k] { assert (a + b)[|a| + k] == b[k]; }
    }
  }

  lemma SlashTaken(before: string, after: string, head: string, rest: string)
    requires '{' !in before && '}' !in after && '}' !in head
    ensures !Slashless(Tokens(Opening(before, after) + ['/'] + (head + ['}'] + rest)))
  {
    var name := after + ['/'] + head;
    assert Opening(before, after) + ['/'] + (head + ['}'] + rest) == Closing(before, name, rest);
    TokensTake(before, name, rest);
    assert name[|after|] == '/' && Tokens(Closing(before, name, rest))[0] == name;
  }

  lemma SlashLeft(before: string, after: string, tail: string)
    requires '{' !in before && '}' !in after && '}' !in tail
    ensures Tokens(Opening(before, after) + ['/'] + tail) == [] && Tokens(tail) == []
  {
    assert Opening(before, after) + ['/'] + tail == Opening(before, after + ['/'] + tail);
    NextIsUnclosed(before, after + ['/'] + tail);
    NoClosing(tail);
  }

  lemma SlashUnclosed(before: string, after: string, tail: string)
    requires '{' !in before && '}' !in after
    ensures var whole := Tokens(Opening(before, after) + ['/'] + tail);
      Slashless(whole) ==> whole == [] && Tokens(tail) == []
  {
    var end := IndexOf(tail, '}');
    if end < |tail| {
      var head, rest := tail[..end], tail[end + 1..];
      assert tail == head + ['}'] + rest;
      SlashTaken(before, after, head, rest);
    } else {
      SlashLeft(before, after, tail);
    }
  }

  /** The scan of a whole template and the scans of its levels give the same
      placeholders exactly when no placeholder of the whole holds a slash. */
  lemma {:induction false} ScansAgree(template: string)
    ensures Slashless(Tokens(template)) <==> Tokens(template) == LevelTokens(SplitOn(template, '/'))
    decreases |template|
  {
    LevelTokensAreSlashless(SplitOn(template, '/'));
    if Slashless(Tokens(template)) {
      LevelsHoldAll(template);
    }
  }

  lemma {:induction false} LevelsHoldAll(template: string)
    requires Slashless(Tokens(template))
    ensures Tokens(template) == LevelTokens(SplitOn(template, '/'))
    decreases |template|
  {
    var k := IndexOf(template, '/');
    if k < |template| {
      var level, tail := template[..k], template[k + 1..];
      CutAt(template, k);
      FirstLevel(level, tail);
      LevelsHoldAll(tail);
    } else {
      LevelTokensSplit(template, []);
    }
  }

  lemma FirstLevel(level: string, tail: string)
    requires '/' !in level && Slashless(Tokens(level + ['/'] + tail))
    ensures Slashless(Tokens(tail)) && Tokens(level + ['/'] + tail) == Tokens(level) + Tokens(tail)
    ensures LevelTokens(SplitOn(level + ['/'] + tail, '/')) == Tokens(level) + LevelTokens(SplitOn(tail, '/'))
  {
    TokensPart(level, tail);
    SlashlessTail(Tokens(level), Tokens(tail));
    SplitAtFirst(level, tail, '/');
    LevelTokensSplit(level, SplitOn(tail, '/'));
  }

  lemma LevelTokensSplit(level: string, levels: seq<string>)
    ensures LevelTokens([level] + levels) == Tokens(level) + LevelTokens(levels)
  {
    assert ([level] + levels)[1..] == levels;
  }

  lemma {:induction false} TokensComeFrom(s: string, c: char)
    requires c !in s
    ensures forall k :: 0 <= k < |Tokens(s)| ==> c !in Tokens(s)[k]
    decreases |s|
  {
    var n := NextSlot(s);
    if n.Closed? {
      ClosingHolds(n.before, n.name, n.rest, c);
      TokensComeFrom(n.rest, c);
    }
  }

  lemma ClosingHolds(before: string, name: string, rest: string, c: char)
    requires c !in Closing(before, name, rest)
    ensures c !in name && c !in rest
  {
    var s := Closing(before, name, rest);
    assert forall k :: 0 <= k < |name| ==> name[k] == s[|before| + 1 + k];
    assert forall k :: 0 <= k < |rest| ==> rest[k] == s[|before| + 2 + |name| + k];
  }

  lemma {:induction false} LevelTokensAreSlashless(levels: seq<string>)
    requires forall l :: l in levels ==> '/' !in l
    ensures Slashless(LevelTokens(levels))
  {
    if levels != [] {
      TokensComeFrom(levels[0], '/');
      LevelTokensAreSlashless(levels[1..]);
      SlashlessTail(Tokens(levels[0]), LevelTokens(levels[1..]));
    }
  }
}
