/** Rendering a whole template: one path level for each of its levels. */
module TemplatePaths {
  import opened Wrappers
  import opened Text
  import opened SafeFilename
  import opened PathTemplates
  import opened TemplateResolver

  /** How long a level and a path may be. */
  datatype Config = Config(levelOctets: nat, pathChars: nat)

  function NonEmpty(parts: seq<string>): (levels: seq<string>)
    ensures forall l :: l in levels <==> l in parts && l != []
  {
    if parts == [] then []
    else (if parts[0] == [] then [] else [parts[0]]) + NonEmpty(parts[1..])
  }

  function Levels(s: string): seq<string> {
    NonEmpty(SplitOn(s, '/'))
  }

  // ---- Rendering every level ----

  function Onto(levels: seq<string>, r: Outcome<seq<string>>): Outcome<seq<string>> {
    if r.Done? then Done(levels + r.value) else r
  }

  function RenderedLevels(x: Context, levels: seq<string>): (r: Outcome<seq<string>>)
    requires Sound(x)
  {
    if levels == [] then Done([])
    else
      var first := Rendered(x, Pieces(levels[0]));
      if first.Failed? then Failed(first.error) else Onto([first.value], RenderedLevels(x, levels[1..]))
  }

  /** The rendering of `levels[i]`, where all of them render. */
  lemma {:induction false} RenderedAt(x: Context, levels: seq<string>, i: nat)
    requires Sound(x) && RenderedLevels(x, levels).Done?
    ensures |RenderedLevels(x, levels).value| == |levels|
    ensures i < |levels| ==> Rendered(x, Pieces(levels[i])) == Done(RenderedLevels(x, levels).value[i])
  {
    if levels != [] {
      RenderedAt(x, levels[1..], if i > 0 then i - 1 else 0);
    }
  }

  lemma {:induction false} LevelNames(x: Context, levels: seq<string>)
    requires Sound(x)
    ensures var r := RenderedLevels(x, levels);
      && (r.Done? ==> AllRegistered(x.registry, LevelTokens(levels)))
      && (r.Failed? ==> !r.error.EmptyPattern?)
      && (r.Failed? && r.error.UnknownToken? ==> r.error.token in LevelTokens(levels) && r.error.token !in x.registry)
  {
    if levels != [] {
      PiecesHoldAll(levels[0]);
      LevelNames(x, levels[1..]);
    }
  }

  // ---- Checking the assembled path ----

  predicate Passes(x: Context, config: Config, level: string) {
    level == [] || (!IsDots(level) && !x.reserved(level) && Length(level, false) <= config.levelOctets)
  }

  function Fault(x: Context, config: Config, path: string, level: string): ResolveError {
    if IsDots(level) then Traversal(level)
    else if x.reserved(level) then DeviceName(level)
    else PathTooLong(|path|, Length(level, false))
  }

  /** The first level that does not pass decides; then the whole length. */
  function PathFault(x: Context, config: Config, path: string, parts: seq<string>): Option<ResolveError> {
    if parts == [] then
      if |path| > config.pathChars then Some(PathTooLong(|path|, 0)) else None
    else if Passes(x, config, parts[0]) then PathFault(x, config, path, parts[1..])
    else Some(Fault(x, config, path, parts[0]))
  }

  method CheckAssembledPath(x: Context, config: Config, path: string) returns (fault: Option<ResolveError>)
    ensures fault == PathFault(x, config, path, SplitOn(path, '/'))
  {
    var parts := SplitOn(path, '/');
    for i := 0 to |parts|
      invariant PathFault(x, config, path, parts) == PathFault(x, config, path, parts[i..])
    {
      var level := parts[i];
      assert parts[i..][1..] == parts[i + 1..];
      if IsDots(level) {
        return Some(Traversal(level));
      }
      if level == [] {
        continue;
      }
      if x.reserved(level) {
        return Some(DeviceName(level));
      }
      if Length(level, false) > config.levelOctets {
        return Some(PathTooLong(|path|, Length(level, false)));
      }
    }
    fault := if |path| > config.pathChars then Some(PathTooLong(|path|, 0)) else None;
  }

  lemma {:induction false} NoFault(x: Context, config: Config, path: string, parts: seq<string>)
    ensures var fault := PathFault(x, config, path, parts);
      && (fault.None? <==> |path| <= config.pathChars && forall p :: p in parts ==> Passes(x, config, p))
      && (fault.Some? ==> !fault.value.UnknownToken? && !fault.value.EmptyPattern?)
  {
    if parts != [] {
      NoFault(x, config, path, parts[1..]);
      assert parts == [parts[0]] + parts[1..];
    }
  }

  /** The octets of a text in UTF-8. */
  function OctetsOf(s: string): nat {
    if s == [] then 0 else Octets(s[0]) + OctetsOf(s[1..])
  }

  lemma {:induction false} LengthIsOctets(s: string)
    ensures Length(s, false) == OctetsOf(s)
  {
    if s != [] {
      assert s == [s[0]] + s[1..];
      LengthAdds([s[0]], s[1..], false);
      LengthIsOctets(s[1..]);
      assert [s[0]][..0] == [];
    }
  }

  /** No dots alone, no device name, and not too many octets; an empty level is
      passed over. */
  predicate IsFine(x: Context, config: Config, level: string) {
    level != "." && level != ".." && (level == [] || (!x.reserved(level) && OctetsOf(level) <= config.levelOctets))
  }

  /** The error names the first level that is not fine, dots before a device
      before its octets; or else the characters of the whole. */
  lemma {:induction false} FaultSays(x: Context, config: Config, path: string, parts: seq<string>) returns (k: nat)
    requires PathFault(x, config, path, parts).Some?
    ensures k <= |parts| && forall i :: 0 <= i < k ==> IsFine(x, config, parts[i])
    ensures var error := PathFault(x, config, path, parts).value;
      if k == |parts| then |path| > config.pathChars && error == PathTooLong(|path|, 0)
      else
        && !IsFine(x, config, parts[k])
        && error == if parts[k] == "." || parts[k] == ".." then Traversal(parts[k])
                    else if x.reserved(parts[k]) then DeviceName(parts[k])
                    else PathTooLong(|path|, OctetsOf(parts[k]))
  {
    k := 0;
    if parts != [] {
      LengthIsOctets(parts[0]);
      if Passes(x, config, parts[0]) {
        var rest := FaultSays(x, config, path, parts[1..]);
        k := rest + 1;
        assert forall i :: 0 < i < |parts| ==> parts[i] == parts[1..][i - 1];
      }
    }
  }

  // ---- The whole template ----

  datatype Resolution = Resolution(path: string, missing: seq<string>)

  function Resolved(x: Context, config: Config, template: string): Outcome<Resolution>
    requires Sound(x)
  {
    if Blank(template) then Failed(EmptyPattern)
    else
      var levels := RenderedLevels(x, Levels(template));
      if levels.Failed? then Failed(levels.error)
      else
        var path := JoinWith(levels.value, '/');
        var fault := PathFault(x, config, path, SplitOn(path, '/'));
        if fault.Some? then Failed(fault.value)
        else Done(Resolution(path, Missing(x, LevelTokens(Levels(template)))))
  }

  /** The rest of the walk from `parts` on: what it renders and what falls back. */
  function RenderedFrom(x: Context, parts: seq<string>): Outcome<seq<string>>
    requires Sound(x)
  {
    RenderedLevels(x, NonEmpty(parts))
  }

  function MissingFrom(x: Context, parts: seq<string>): seq<string>
    requires Sound(x)
  {
    Missing(x, LevelTokens(NonEmpty(parts)))
  }

  lemma EmptySkips(x: Context, parts: seq<string>)
    requires Sound(x) && parts != [] && parts[0] == []
    ensures RenderedFrom(x, parts) == RenderedFrom(x, parts[1..])
    ensures MissingFrom(x, parts) == MissingFrom(x, parts[1..])
  {
    assert NonEmpty(parts) == NonEmpty(parts[1..]);
  }

  lemma LevelTakes(x: Context, parts: seq<string>)
    requires Sound(x) && parts != [] && parts[0] != []
    ensures var first := Rendered(x, Pieces(parts[0]));
      RenderedFrom(x, parts) == if first.Failed? then Failed(first.error) else Onto([first.value], RenderedFrom(x, parts[1..]))
    ensures MissingFrom(x, parts) == Missing(x, Tokens(parts[0])) + MissingFrom(x, parts[1..])
  {
    var levels := NonEmpty(parts);
    assert levels[0] == parts[0] && levels[1..] == NonEmpty(parts[1..]);
    MissingAdds(x, Tokens(parts[0]), LevelTokens(NonEmpty(parts[1..])));
  }

  lemma OntoNothing(r: Outcome<seq<string>>)
    ensures Onto([], r) == r
  {
    assert r.Done? ==> [] + r.value == r.value;
  }

  lemma OntoAgain(done: seq<string>, level: string, r: Outcome<seq<string>>)
    ensures Onto(done, Onto([level], r)) == Onto(done + [level], r)
  {
    assert r.Done? ==> done + ([level] + r.value) == done + [level] + r.value;
  }

  lemma LevelGoesOn(x: Context, parts: seq<string>, levels: seq<string>, level: Outcome<string>, before: seq<string>, missing: seq<string>)
    requires Sound(x) && parts != [] && parts[0] != [] && level == Rendered(x, Pieces(parts[0]))
    requires level.Done? ==> missing == before + Missing(x, Tokens(parts[0]))
    ensures level.Failed? ==> RenderedFrom(x, parts) == Failed(level.error)
    ensures level.Done? ==>
      && Onto(levels, RenderedFrom(x, parts)) == Onto(levels + [level.value], RenderedFrom(x, parts[1..]))
      && before + MissingFrom(x, parts) == missing + MissingFrom(x, parts[1..])
  {
    LevelTakes(x, parts);
    if level.Done? {
      OntoAgain(levels, level.value, RenderedFrom(x, parts[1..]));
      AppendAgain(before, Missing(x, Tokens(parts[0])), MissingFrom(x, parts[1..]));
    }
  }

  lemma AppendAgain(a: seq<string>, b: seq<string>, c: seq<string>)
    ensures a + (b + c) == a + b + c
  {
  }

  /** One turn of the walk over the levels: an empty one is skipped. */
  method ResolveFirst(x: Context, parts: seq<string>, levels: seq<string>, before: seq<string>)
    returns (r: Outcome<seq<string>>, missing: seq<string>)
    requires Sound(x) && parts != []
    ensures r.Done? ==>
      && Onto(levels, RenderedFrom(x, parts)) == Onto(r.value, RenderedFrom(x, parts[1..]))
      && before + MissingFrom(x, parts) == missing + MissingFrom(x, parts[1..])
    ensures r.Failed? ==> RenderedFrom(x, parts) == r
  {
    if parts[0] == [] {
      EmptySkips(x, parts);
      return Done(levels), before;
    }
    var level;
    level, missing := ResolveSegment(x, parts[0], before);
    LevelGoesOn(x, parts, levels, level, before, missing);
    r := if level.Failed? then Failed(level.error) else Done(levels + [level.value]);
  }

  method ResolveLevels(x: Context, parts: seq<string>) returns (r: Outcome<seq<string>>, missing: seq<string>)
    requires Sound(x)
    ensures r == RenderedFrom(x, parts)
    ensures r.Done? ==> missing == MissingFrom(x, parts)
  {
    var levels: seq<string> := [];
    missing := [];
    ghost var whole, names := RenderedFrom(x, parts), MissingFrom(x, parts);
    OntoNothing(whole);
    assert parts[0..] == parts;
    for i := 0 to |parts|
      invariant whole == Onto(levels, RenderedFrom(x, parts[i..]))
      invariant names == missing + MissingFrom(x, parts[i..])
    {
      assert parts[i..][1..] == parts[i + 1..];
      r, missing := ResolveFirst(x, parts[i..], levels, missing);
      if r.Failed? {
        return;
      }
      levels := r.value;
    }
    assert parts[|parts|..] == [] && levels + [] == levels;
    r := Done(levels);
  }

  method ResolvePattern(x: Context, config: Config, template: string) returns (r: Outcome<Resolution>)
    requires Sound(x)
    ensures r == Resolved(x, config, template)
  {
    if Blank(template) {
      return Failed(EmptyPattern);
    }
    var levels, missing := ResolveLevels(x, SplitOn(template, '/'));
    if levels.Failed? {
      return Failed(levels.error);
    }
    var path := JoinWith(levels.value, '/');
    var fault := CheckAssembledPath(x, config, path);
    r := if fault.Some? then Failed(fault.value) else Done(Resolution(path, missing));
  }

  // ---- What a resolution is ----

  /** A rendered level is not empty and holds no slash. */
  lemma RenderedIsLevel(x: Context, level: string)
    requires Sound(x) && level != [] && Rendered(x, Pieces(level)).Done?
    ensures Rendered(x, Pieces(level)).value != [] && '/' !in Rendered(x, Pieces(level)).value
  {
    PiecesHoldAll(level);
    assert Pieces(level) != [];
  }

  lemma {:induction false} AllNonEmpty(levels: seq<string>)
    requires forall k :: 0 <= k < |levels| ==> levels[k] != []
    ensures NonEmpty(levels) == levels
  {
    if levels != [] {
      AllNonEmpty(levels[1..]);
    }
  }

  lemma LevelsOfJoin(levels: seq<string>)
    requires forall k :: 0 <= k < |levels| ==> levels[k] != [] && '/' !in levels[k]
    ensures Levels(JoinWith(levels, '/')) == levels
  {
    if levels == [] {
      assert SplitOn([], '/') == [[]];
    } else {
      SplitOfJoin(levels, '/');
      AllNonEmpty(levels);
    }
  }

  predicate IsRendering(x: Context, level: string, text: string)
    requires Sound(x)
  {
    Rendered(x, Pieces(level)) == Done(text) && text != [] && '/' !in text
  }

  lemma RenderingsAreLevels(x: Context, levels: seq<string>)
    requires Sound(x) && RenderedLevels(x, levels).Done?
    requires forall k :: 0 <= k < |levels| ==> levels[k] != []
    ensures var texts := RenderedLevels(x, levels).value;
      |texts| == |levels| && forall i :: 0 <= i < |levels| ==> IsRendering(x, levels[i], texts[i])
  {
    var texts := RenderedLevels(x, levels).value;
    RenderedAt(x, levels, 0);
    forall i | 0 <= i < |levels| ensures IsRendering(x, levels[i], texts[i]) {
      RenderedAt(x, levels, i);
      RenderedIsLevel(x, levels[i]);
    }
  }

  /** A path that comes out has exactly one level for each level of the
      template, rendered from it, and each passes: it is not empty, no dots,
      no device, not too long, and neither is the whole. */
  lemma PathHasTheLevels(x: Context, config: Config, template: string)
    requires Sound(x) && Resolved(x, config, template).Done?
    ensures var path := Resolved(x, config, template).value.path;
      && |path| <= config.pathChars
      && path == JoinWith(Levels(path), '/')
      && |Levels(path)| == |Levels(template)|
      && (forall i :: 0 <= i < |Levels(path)| ==> IsRendering(x, Levels(template)[i], Levels(path)[i]))
      && (forall i :: 0 <= i < |Levels(path)| ==> IsFine(x, config, Levels(path)[i]))
  {
    var path := Resolved(x, config, template).value.path;
    var texts := RenderedLevels(x, Levels(template)).value;
    forall k | 0 <= k < |Levels(template)| ensures Levels(template)[k] != [] {
      assert Levels(template)[k] in Levels(template);
    }
    RenderingsAreLevels(x, Levels(template));
    LevelsOfJoin(texts);
    NoFault(x, config, path, SplitOn(path, '/'));
    forall i | 0 <= i < |texts| ensures IsFine(x, config, texts[i]) {
      assert texts[i] in Levels(path);
      LengthIsOctets(texts[i]);
    }
  }

  lemma {:induction false} LevelTokensSkipEmpty(parts: seq<string>)
    ensures LevelTokens(NonEmpty(parts)) == LevelTokens(parts)
  {
    if parts != [] {
      LevelTokensSkipEmpty(parts[1..]);
      if parts[0] == [] {
        NextIsPlain([]);
        assert NonEmpty(parts) == NonEmpty(parts[1..]);
        assert Tokens(parts[0]) == [] && [] + LevelTokens(parts[1..]) == LevelTokens(parts[1..]);
      } else {
        assert ([parts[0]] + NonEmpty(parts[1..]))[1..] == NonEmpty(parts[1..]);
      }
    }
  }

  /** A template the check accepts resolves with the placeholders the check
      saw: never for want of a token, and what fell back is reported in the
      template's order. */
  lemma AcceptedNeverUnknown(x: Context, config: Config, template: string)
    requires Sound(x) && Accepts(x.registry, template)
    ensures var r := Resolved(x, config, template);
      && (r.Failed? ==> !r.error.UnknownToken? && !r.error.EmptyPattern?)
      && (r.Done? ==> r.value.missing == Missing(x, Tokens(template)))
  {
    var names := Tokens(template);
    forall k | 0 <= k < |names| ensures '/' !in names[k] {
      assert Unmarked(names[k]);
    }
    ScansAgree(template);
    LevelTokensSkipEmpty(SplitOn(template, '/'));
    LevelNames(x, Levels(template));
    var levels := RenderedLevels(x, Levels(template));
    if levels.Done? {
      var path := JoinWith(levels.value, '/');
      NoFault(x, config, path, SplitOn(path, '/'));
    }
  }

  /** Whatever the template, a token the resolver does not know never
      resolves, and the one it names is such a token. */
  lemma UnknownNeverResolves(x: Context, config: Config, template: string)
    requires Sound(x)
    ensures var r := Resolved(x, config, template);
      && (r.Done? ==> AllRegistered(x.registry, LevelTokens(Levels(template))))
      && (r.Failed? && r.error.UnknownToken? ==> r.error.token in LevelTokens(Levels(template)) && r.error.token !in x.registry)
  {
    LevelNames(x, Levels(template));
    var levels := RenderedLevels(x, Levels(template));
    if levels.Done? {
      var path := JoinWith(levels.value, '/');
      NoFault(x, config, path, SplitOn(path, '/'));
    }
  }

  lemma LevelsUnopened(name: string, tail: string)
    requires '}' !in name && '/' !in name && '/' !in tail && '{' !in tail
    ensures LevelTokens([['{'] + name, tail]) == []
  {
    NextIsUnclosed([], name);
    assert Opening([], name) == ['{'] + name;
    NextIsPlain(tail);
    assert LevelTokens([tail]) == Tokens(tail) + LevelTokens([]);
    assert [['{'] + name, tail][1..] == [tail];
  }

  lemma SplitInTwo(head: string, tail: string)
    requires '/' !in head && '/' !in tail
    ensures SplitOn(head + ['/'] + tail, '/') == [head, tail]
  {
    SplitAtFirst(head, tail, '/');
    SplitOfJoin([tail], '/');
  }

  /** A template the check refuses may still resolve: the placeholder the
      check sees takes the slash in, and the resolver sees none. */
  lemma SlashInsideBraces(name: string, rest: string)
    requires '}' !in name && '/' !in name && '}' !in rest && '/' !in rest && '{' !in rest
    ensures var template := Closing([], name + ['/'] + rest, []);
      Tokens(template) == [name + ['/'] + rest] && LevelTokens(SplitOn(template, '/')) == []
  {
    OneToken(name + ['/'] + rest);
    BracesCut(name, rest);
    SplitInTwo(['{'] + name, rest + ['}']);
    LevelsUnopened(name, rest + ['}']);
  }

  lemma OneToken(name: string)
    requires '}' !in name
    ensures Tokens(Closing([], name, [])) == [name]
  {
    TokensTake([], name, []);
    NextIsPlain([]);
  }

  lemma BracesCut(name: string, rest: string)
    ensures Closing([], name + ['/'] + rest, []) == (['{'] + name) + ['/'] + (rest + ['}'])
  {
  }
}
