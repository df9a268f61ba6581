/** Rendering an accepted destination template into a relative path. */
module TemplateResolver {
  import opened Wrappers
  import opened Text
  import opened SafeFilename
  import opened PathTemplates

  // ---- Accepting a template ----

  method TokensIn(template: string) returns (tokens: seq<string>)
    ensures tokens == Tokens(template)
  {
    tokens := [];
    var rest := Some(template);
    while rest.Some?
      invariant rest.None? ==> tokens == Tokens(template)
      invariant rest.Some? ==> tokens + Tokens(rest.value) == Tokens(template)
      decreases if rest.Some? then |rest.value| + 1 else 0
    {
      tokens, rest := TakeToken(tokens, rest.value);
    }
  }

  /** The next placeholder, if one is found, and what follows it. */
  method TakeToken(before: seq<string>, text: string) returns (tokens: seq<string>, rest: Option<string>)
    ensures rest.None? ==> tokens == before + Tokens(text)
    ensures rest.Some? ==> tokens + Tokens(rest.value) == before + Tokens(text) && |rest.value| < |text|
  {
    var next := NextSlot(text);
    match next
    case Closed(_, name, tail) =>
      TokensRegroup(before, name, Tokens(tail));
      return before + [name], Some(tail);
    case _ => return before, None;
  }

  lemma TokensRegroup(before: seq<string>, name: string, rest: seq<string>)
    ensures before + [name] + rest == before + ([name] + rest)
  {
  }

  datatype Validity = Accepted | EmptyTemplate | UnknownName(token: string)

  predicate AllRegistered(registry: Registry, names: seq<string>) {
    forall k :: 0 <= k < |names| ==> names[k] in registry
  }

  predicate Accepts(registry: Registry, template: string) {
    !Blank(template) && AllRegistered(registry, Tokens(template))
  }

  /** `names[k]` is the first that is not registered. */
  predicate FirstUnknown(registry: Registry, names: seq<string>, k: nat) {
    k < |names| && names[k] !in registry && forall i :: 0 <= i < k ==> names[i] in registry
  }

  method CheckNames(registry: Registry, names: seq<string>) returns (v: Validity)
    ensures !v.EmptyTemplate?
    ensures v.Accepted? <==> AllRegistered(registry, names)
    ensures v.UnknownName? ==> exists k: nat :: FirstUnknown(registry, names, k) && names[k] == v.token
  {
    for i := 0 to |names|
      invariant forall k :: 0 <= k < i ==> names[k] in registry
    {
      if names[i] !in registry {
        assert FirstUnknown(registry, names, i);
        return UnknownName(names[i]);
      }
    }
    v := Accepted;
  }

  method Validate(registry: Registry, template: string) returns (v: Validity)
    ensures v.Accepted? <==> Accepts(registry, template)
    ensures v.EmptyTemplate? <==> Blank(template)
    ensures v.UnknownName? ==> exists k: nat :: FirstUnknown(registry, Tokens(template), k) && Tokens(template)[k] == v.token
  {
    if Blank(template) {
      return EmptyTemplate;
    }
    var tokens := TokensIn(template);
    v := CheckNames(registry, tokens);
  }

  datatype FrameClass = Light | Flat | Dark | Bias | MasterFlat | MasterDark | MasterBias

  function Placeholder(name: string): string {
    Closing([], name, [])
  }

  function DefaultTemplate(class_: FrameClass): string {
    match class_
    case Light => Placeholder("target") + ("/" + Placeholder("filter") + ("/" + Placeholder("date") + "/light/"))
    case Flat => "flats/" + Placeholder("filter") + ("/" + Placeholder("date") + "/")
    case Dark => "darks/" + Placeholder("exposure") + "/"
    case Bias => "bias/"
    case MasterFlat => "masters/flats/" + Placeholder("filter") + "/"
    case MasterDark => "masters/darks/" + Placeholder("exposure") + "/"
    case MasterBias => "masters/bias/"
  }

  lemma AcceptsAfter(registry: Registry, literal: string, name: string, rest: string)
    requires Usable(registry) && name in registry
    requires '{' !in literal && AllRegistered(registry, Tokens(rest))
    ensures AllRegistered(registry, Tokens(literal + Placeholder(name) + rest))
  {
    TokensTake(literal, name, rest);
    ClosingMoves(literal, [], name, [], rest);
    ClosingMoves([], literal, name, [], rest);
    assert literal + [] == literal && [] + rest == rest;
  }

  lemma LightIsAccepted()
    ensures AllRegistered(V1, Tokens(DefaultTemplate(Light)))
  {
    V1IsSound();
    V1Holds("date");
    V1Holds("filter");
    V1Holds("target");
    var date := "/" + Placeholder("date") + "/light/";
    NextIsPlain("/light/");
    AcceptsAfter(V1, "/", "date", "/light/");
    AcceptsAfter(V1, "/", "filter", date);
    AcceptsAfter(V1, "", "target", "/" + Placeholder("filter") + date);
    assert "" + Placeholder("target") == Placeholder("target");
  }

  lemma FlatIsAccepted()
    ensures AllRegistered(V1, Tokens(DefaultTemplate(Flat)))
  {
    V1IsSound();
    V1Holds("date");
    V1Holds("filter");
    NextIsPlain("/");
    AcceptsAfter(V1, "/", "date", "/");
    AcceptsAfter(V1, "flats/", "filter", "/" + Placeholder("date") + "/");
  }

  lemma OneTokenIsAccepted(literal: string, name: string)
    requires '{' !in literal && IsName(name)
    ensures AllRegistered(V1, Tokens(literal + Placeholder(name) + "/"))
  {
    V1IsSound();
    V1Holds(name);
    NextIsPlain("/");
    AcceptsAfter(V1, literal, name, "/");
  }

  lemma BareIsAccepted(literal: string)
    requires '{' !in literal
    ensures AllRegistered(V1, Tokens(literal))
  {
    NextIsPlain(literal);
  }

  lemma DefaultNames(class_: FrameClass)
    ensures AllRegistered(V1, Tokens(DefaultTemplate(class_)))
  {
    match class_
    case Light => LightIsAccepted();
    case Flat => FlatIsAccepted();
    case Dark => OneTokenIsAccepted("darks/", "exposure");
    case Bias => BareIsAccepted("bias/");
    case MasterFlat => OneTokenIsAccepted("masters/flats/", "filter");
    case MasterDark => OneTokenIsAccepted("masters/darks/", "exposure");
    case MasterBias => BareIsAccepted("masters/bias/");
  }

  lemma DateReads()
    ensures "/" + Placeholder("date") + "/light/" == "/{date}/light/"
  {
  }

  lemma FilterReads()
    ensures "/" + Placeholder("filter") + "/{date}/light/" == "/{filter}/{date}/light/"
  {
  }

  lemma TargetReads()
    ensures Placeholder("target") + "/{filter}/{date}/light/" == "{target}/{filter}/{date}/light/"
  {
  }

  lemma LightReads()
    ensures DefaultTemplate(Light) == "{target}/{filter}/{date}/light/"
  {
    DateReads();
    FilterReads();
    TargetReads();
  }

  lemma FlatReads()
    ensures DefaultTemplate(Flat) == "flats/{filter}/{date}/"
  {
    assert "flats/" + Placeholder("filter") == "flats/{filter}";
    assert Placeholder("date") + "/" == "{date}/";
    assert "/" + "{date}/" == "/{date}/";
  }

  lemma DarkReads()
    ensures DefaultTemplate(Dark) == "darks/{exposure}/"
    ensures DefaultTemplate(MasterDark) == "masters/darks/{exposure}/"
  {
    assert Placeholder("exposure") == "{exposure}";
  }

  lemma MasterFlatReads()
    ensures DefaultTemplate(MasterFlat) == "masters/flats/{filter}/"
  {
    assert Placeholder("filter") == "{filter}";
  }

  /** The built-in template of each class, written out. */
  lemma DefaultIs(class_: FrameClass)
    ensures DefaultTemplate(class_) ==
      match class_
      case Light => "{target}/{filter}/{date}/light/"
      case Flat => "flats/{filter}/{date}/"
      case Dark => "darks/{exposure}/"
      case Bias => "bias/"
      case MasterFlat => "masters/flats/{filter}/"
      case MasterDark => "masters/darks/{exposure}/"
      case MasterBias => "masters/bias/"
  {
    match class_
    case Light => LightReads();
    case Flat => FlatReads();
    case Dark | MasterDark => DarkReads();
    case MasterFlat => MasterFlatReads();
    case Bias | MasterBias =>
  }

  lemma TokensAfter(literal: string, name: string, rest: string)
    requires '{' !in literal && '}' !in name
    ensures Tokens(literal + Placeholder(name) + rest) == [name] + Tokens(rest)
  {
    ClosingIs(literal, name, rest);
    TokensTake(literal, name, rest);
  }

  lemma ClosingIs(literal: string, name: string, rest: string)
    ensures literal + Placeholder(name) + rest == Closing(literal, name, rest)
  {
  }

  lemma ThreeTokens(a: string, b: string, c: string, tail: string)
    requires '}' !in a && '}' !in b && '}' !in c && '{' !in tail
    ensures Tokens(Placeholder(a) + ("/" + Placeholder(b) + ("/" + Placeholder(c) + tail))) == [a, b, c]
  {
    NextIsPlain(tail);
    TokensAfter("/", c, tail);
    TokensAfter("/", b, "/" + Placeholder(c) + tail);
    TokensAfter("", a, "/" + Placeholder(b) + ("/" + Placeholder(c) + tail));
    assert "" + Placeholder(a) == Placeholder(a);
  }

  lemma LightTokens()
    ensures Tokens(DefaultTemplate(Light)) == ["target", "filter", "date"]
  {
    ThreeTokens("target", "filter", "date", "/light/");
  }

  lemma TwoTokens(literal: string, a: string, b: string)
    requires '{' !in literal && '}' !in a && '}' !in b
    ensures Tokens(literal + Placeholder(a) + ("/" + Placeholder(b) + "/")) == [a, b]
  {
    NextIsPlain("/");
    TokensAfter("/", b, "/");
    TokensAfter(literal, a, "/" + Placeholder(b) + "/");
  }

  lemma FlatTokens()
    ensures Tokens(DefaultTemplate(Flat)) == ["filter", "date"]
  {
    TwoTokens("flats/", "filter", "date");
  }

  lemma OneTokenOnly(literal: string, name: string)
    requires '{' !in literal && '}' !in name
    ensures Tokens(literal + Placeholder(name) + "/") == [name]
  {
    NextIsPlain("/");
    TokensAfter(literal, name, "/");
  }

  /** What each class is filed by: lights by target, filter and date, flats by
      filter and date, darks by exposure, bias frames by nothing, and masters
      as their frames but for the date. */
  lemma DefaultFilesBy(class_: FrameClass)
    ensures Tokens(DefaultTemplate(class_)) ==
      match class_
      case Light => ["target", "filter", "date"]
      case Flat => ["filter", "date"]
      case Dark | MasterDark => ["exposure"]
      case MasterFlat => ["filter"]
      case Bias | MasterBias => []
  {
    match class_
    case Light => LightTokens();
    case Flat => FlatTokens();
    case Dark => OneTokenOnly("darks/", "exposure");
    case Bias => NextIsPlain("bias/");
    case MasterFlat => OneTokenOnly("masters/flats/", "filter");
    case MasterDark => OneTokenOnly("masters/darks/", "exposure");
    case MasterBias => NextIsPlain("masters/bias/");
  }

  lemma NotBlank(s: string)
    requires s != [] && !IsWhitespace(s[0])
    ensures !Blank(s)
  {
  }

  /** Every built-in template is accepted. */
  lemma DefaultIsAccepted(class_: FrameClass)
    ensures Accepts(V1, DefaultTemplate(class_))
  {
    DefaultNames(class_);
    NotBlank(DefaultTemplate(class_));
  }

  /** The override where it is one and is accepted, else the built-in template:
      what takes effect is always an accepted template. */
  method EffectiveTemplate(class_: FrameClass, override: Option<string>) returns (template: string)
    ensures Accepts(V1, template)
    ensures template == if override.Some? && Accepts(V1, override.value) then override.value else DefaultTemplate(class_)
  {
    DefaultIsAccepted(class_);
    if override.Some? {
      var v := Validate(V1, override.value);
      if v.Accepted? {
        return override.value;
      }
    }
    template := DefaultTemplate(class_);
  }

  // ---- One piece ----

  datatype ResolveError =
    | EmptyPattern
    | UnknownToken(token: string)
    | Traversal(segment: string)
    | DeviceName(segment: string)
    | Confusable(token: string, value: string)
    | PathTooLong(chars: nat, octets: nat)
    | EmptySegment(value: string)

  datatype Outcome<+T> = Done(value: T) | Failed(error: ResolveError)

  function Mapped(e: SanitizeError): (r: ResolveError)
    ensures !r.UnknownToken? && !r.EmptyPattern?
  {
    match e
    case PathTraversal(segment) => Traversal(segment)
    case ReservedName(segment) => DeviceName(segment)
    case UnicodeConfusable(token, value) => Confusable(token, value)
    case EmptyAfterSanitize(_, value) => EmptySegment(value)
  }

  /** Text for one piece, and whether it is a fallback. */
  datatype Filled = Filled(text: string, missing: bool)

  /** What a resolution reads: the vocabulary, the frame's metadata, and what
      the platform's naming rules do to a value. */
  datatype Context = Context(
    registry: Registry,
    bundle: map<string, string>,
    lower: string -> string,
    clean: (string, string) -> Sanitized,
    reserved: string -> bool)

  /** A cleaned value is one level. */
  ghost predicate Sound(x: Context) {
    && Usable(x.registry)
    && forall t, s :: x.clean(t, s).Safe? ==> x.clean(t, s).text != [] && '/' !in x.clean(t, s).text
  }

  /** The product's own context. */
  function Product(u: Unicode, bundle: map<string, string>): Context {
    Context(V1, bundle, u.lower, (t, s) => Sanitize(u, t, s), s => Reserved(u, s))
  }

  lemma ProductIsSound(u: Unicode, bundle: map<string, string>)
    ensures Sound(Product(u, bundle))
  {
    V1IsSound();
    var x := Product(u, bundle);
    forall t, s | x.clean(t, s).Safe? ensures x.clean(t, s).text != [] && '/' !in x.clean(t, s).text {
      assert x.clean(t, s) == Sanitize(u, t, s);
      LevelHasNoSlash(Sanitize(u, t, s).text);
    }
  }

  predicate Given(x: Context, name: string)
    requires name in x.registry
  {
    var source := x.registry[name].source;
    source in x.bundle && x.bundle[source] != []
  }

  /** What the sanitizer is given for a token: its value where there is one,
      else its fallback, transformed. */
  function RawValue(x: Context, name: string): string
    requires name in x.registry
  {
    var d := x.registry[name];
    var raw := if Given(x, name) then x.bundle[d.source] else d.fallback;
    if d.transform.Lower? then x.lower(raw) else raw
  }

  lemma LevelHasNoSlash(s: string)
    requires IsLevel(s)
    ensures '/' !in s
  {
  }

  function SanitizeLiteral(x: Context, text: string): (r: Outcome<string>)
    requires Sound(x)
    ensures r.Done? ==> r.value != [] && '/' !in r.value
    ensures r.Failed? ==> !r.error.UnknownToken? && !r.error.EmptyPattern?
  {
    var s := x.clean("literal", text);
    if s.Safe? then Done(s.text) else Failed(Mapped(s.error))
  }

  function ResolveOneToken(x: Context, name: string): (r: Outcome<Filled>)
    requires Sound(x)
    ensures r.Done? ==> r.value.text != [] && '/' !in r.value.text
    ensures name !in x.registry <==> r.Failed? && r.error.UnknownToken?
    ensures r.Failed? && r.error.UnknownToken? ==> r.error.token == name
    ensures r.Failed? ==> !r.error.EmptyPattern?
    ensures r.Done? && !r.value.missing ==> Given(x, name) && x.clean(name, RawValue(x, name)) == Safe(r.value.text)
  {
    if name !in x.registry then Failed(UnknownToken(name))
    else
      var s := x.clean(name, RawValue(x, name));
      if s.Safe? then Done(Filled(s.text, !Given(x, name)))
      else if s.error.EmptyAfterSanitize? then Done(Filled(x.registry[name].fallback, true))
      else Failed(Mapped(s.error))
  }

  /** Text before a placeholder, which may be none. */
  function LiteralText(x: Context, text: string): (r: Outcome<string>)
    requires Sound(x)
    ensures r.Done? ==> '/' !in r.value
    ensures r.Failed? ==> !r.error.UnknownToken? && !r.error.EmptyPattern?
  {
    if text == [] then Done([]) else SanitizeLiteral(x, text)
  }

  function PieceText(x: Context, p: Piece): (r: Outcome<string>)
    requires Sound(x)
    ensures r.Done? ==> r.value != [] && '/' !in r.value
    ensures r.Failed? ==> !r.error.EmptyPattern?
    ensures r.Failed? && r.error.UnknownToken? <==> p.Slot? && p.name !in x.registry
    ensures r.Failed? && r.error.UnknownToken? ==> p.Slot? && r.error.token == p.name
  {
    if p.Literal? then SanitizeLiteral(x, p.text)
    else
      var r := ResolveOneToken(x, p.name);
      if r.Done? then Done(r.value.text) else Failed(r.error)
  }

  predicate IsMissing(x: Context, name: string)
    requires Sound(x)
  {
    var r := ResolveOneToken(x, name);
    r.Done? && r.value.missing
  }

  // ---- One level ----

  function Before(text: string, r: Outcome<string>): Outcome<string> {
    if r.Done? then Done(text + r.value) else r
  }

  function Then(first: Outcome<string>, rest: Outcome<string>): Outcome<string> {
    if first.Done? then Before(first.value, rest) else first
  }

  /** The pieces' texts one after another, or the first failure. */
  function Rendered(x: Context, ps: seq<Piece>): (r: Outcome<string>)
    requires Sound(x)
    ensures r.Done? ==> '/' !in r.value && |ps| <= |r.value|
    ensures r.Failed? ==> !r.error.EmptyPattern?
    ensures r.Done? ==> AllRegistered(x.registry, SlotNames(ps))
    ensures r.Failed? && r.error.UnknownToken? ==> r.error.token in SlotNames(ps) && r.error.token !in x.registry
  {
    if ps == [] then Done([])
    else
      var first := PieceText(x, ps[0]);
      Then(first, Rendered(x, ps[1..]))
  }

  /** The names that fell back, in order. */
  function Missing(x: Context, names: seq<string>): seq<string>
    requires Sound(x)
  {
    if names == [] then []
    else (if IsMissing(x, names[0]) then [names[0]] else []) + Missing(x, names[1..])
  }

  lemma {:induction false} MissingAdds(x: Context, a: seq<string>, b: seq<string>)
    requires Sound(x)
    ensures Missing(x, a + b) == Missing(x, a) + Missing(x, b)
  {
    if a == [] {
      assert a + b == b;
    } else {
      assert (a + b)[1..] == a[1..] + b;
      MissingAdds(x, a[1..], b);
    }
  }

  lemma RenderedFirst(x: Context, p: Piece, ps: seq<Piece>)
    requires Sound(x)
    ensures Rendered(x, [p] + ps) == Then(PieceText(x, p), Rendered(x, ps))
  {
    assert ([p] + ps)[1..] == ps;
  }

  lemma RenderedLiteral(x: Context, text: string, ps: seq<Piece>)
    requires Sound(x)
    ensures Rendered(x, LiteralIf(text) + ps) == Then(LiteralText(x, text), Rendered(x, ps))
  {
    if text == [] {
      assert LiteralIf(text) + ps == ps;
      var r := Rendered(x, ps);
      assert r.Done? ==> [] + r.value == r.value;
    } else {
      RenderedFirst(x, Literal(text), ps);
    }
  }

  lemma RenderedAlone(x: Context, text: string)
    requires Sound(x)
    ensures Rendered(x, LiteralIf(text)) == LiteralText(x, text)
  {
    RenderedLiteral(x, text, []);
    assert LiteralIf(text) + [] == LiteralIf(text);
    var r := LiteralText(x, text);
    assert r.Done? ==> r.value + [] == r.value;
  }

  /** How a level renders, up to its first placeholder. */
  lemma RenderedOpens(x: Context, s: string)
    requires Sound(x)
    ensures var next := NextSlot(s);
      Rendered(x, Pieces(s)) ==
        if next.Plain? then LiteralText(x, s)
        else if next.Unclosed? then Then(LiteralText(x, next.before), LiteralText(x, ['{'] + next.after))
        else Then(LiteralText(x, next.before), Then(PieceText(x, Slot(next.name)), Rendered(x, Pieces(next.rest))))
  {
    match NextSlot(s)
    case Plain => RenderedAlone(x, s);
    case Unclosed(before, after) =>
      RenderedLiteral(x, before, LiteralIf(['{'] + after));
      RenderedAlone(x, ['{'] + after);
    case Closed(before, name, rest) => RenderedSlot(x, before, name, Pieces(rest));
  }

  lemma RenderedSlot(x: Context, before: string, name: string, ps: seq<Piece>)
    requires Sound(x)
    ensures Rendered(x, LiteralIf(before) + [Slot(name)] + ps)
         == Then(LiteralText(x, before), Then(PieceText(x, Slot(name)), Rendered(x, ps)))
  {
    RenderedLiteral(x, before, [Slot(name)] + ps);
    RenderedFirst(x, Slot(name), ps);
    assert LiteralIf(before) + [Slot(name)] + ps == LiteralIf(before) + ([Slot(name)] + ps);
  }

  lemma NothingBefore(r: Outcome<string>)
    ensures Before([], r) == r
  {
    assert r.Done? ==> [] + r.value == r.value;
  }

  lemma Regroup(out: string, text: string, r: Outcome<string>)
    ensures Before(out, Before(text, r)) == Before(out + text, r)
  {
    assert r.Done? ==> out + (text + r.value) == out + text + r.value;
  }

  lemma NothingAfter(x: Context, r: Outcome<string>)
    requires Sound(x)
    ensures Then(r, Rendered(x, Pieces([]))) == r
  {
    NextIsPlain([]);
    assert r.Done? ==> r.value + [] == r.value;
  }

  lemma ThenAgain(a: Outcome<string>, b: Outcome<string>, c: Outcome<string>)
    ensures Then(a, Then(b, c)) == Then(Then(a, b), c)
  {
    if a.Done? && b.Done? {
      Regroup(a.value, b.value, c);
    }
  }

  method ResolvePlaceholder(x: Context, literal: string, name: string, before: seq<string>)
    returns (text: Outcome<string>, missing: seq<string>)
    requires Sound(x)
    ensures text == Then(LiteralText(x, literal), PieceText(x, Slot(name)))
    ensures text.Done? ==> missing == before + Missing(x, [name])
  {
    text, missing := LiteralText(x, literal), before;
    if text.Done? {
      var filled := ResolveOneToken(x, name);
      text := if filled.Done? then Done(text.value + filled.value.text) else Failed(filled.error);
      missing := if filled.Done? && filled.value.missing then missing + [name] else missing;
      assert Missing(x, [name]) == if IsMissing(x, name) then [name] else [];
    }
  }

  /** One turn of the walk along a level: the literal text before the next
      placeholder, and the placeholder. */
  method ResolveNext(x: Context, rest: string, before: seq<string>)
    returns (text: Outcome<string>, missing: seq<string>, left: string)
    requires Sound(x) && rest != []
    ensures Rendered(x, Pieces(rest)) == Then(text, Rendered(x, Pieces(left)))
    ensures text.Done? ==> before + Missing(x, Tokens(rest)) == missing + Missing(x, Tokens(left))
    ensures |left| < |rest|
  {
    RenderedOpens(x, rest);
    missing, left := before, [];
    match NextSlot(rest)
    case Plain =>
      text := LiteralText(x, rest);
      NothingAfter(x, text);
    case Unclosed(literal, after) =>
      text := Then(LiteralText(x, literal), LiteralText(x, ['{'] + after));
      NothingAfter(x, text);
    case Closed(literal, name, tail) =>
      left := tail;
      PlaceholderNext(x, literal, name, tail);
      text, missing := ResolvePlaceholder(x, literal, name, before);
  }

  lemma PlaceholderNext(x: Context, literal: string, name: string, tail: string)
    requires Sound(x)
    ensures Then(LiteralText(x, literal), Then(PieceText(x, Slot(name)), Rendered(x, Pieces(tail))))
         == Then(Then(LiteralText(x, literal), PieceText(x, Slot(name))), Rendered(x, Pieces(tail)))
    ensures Missing(x, [name] + Tokens(tail)) == Missing(x, [name]) + Missing(x, Tokens(tail))
  {
    ThenAgain(LiteralText(x, literal), PieceText(x, Slot(name)), Rendered(x, Pieces(tail)));
    MissingAdds(x, [name], Tokens(tail));
  }

  method ResolveSegment(x: Context, segment: string, before: seq<string>)
    returns (r: Outcome<string>, missing: seq<string>)
    requires Sound(x)
    ensures r == Rendered(x, Pieces(segment))
    ensures r.Done? ==> missing == before + Missing(x, Tokens(segment))
  {
    var out, rest := "", segment;
    missing := before;
    NothingBefore(Rendered(x, Pieces(segment)));
    while rest != []
      invariant Rendered(x, Pieces(segment)) == Before(out, Rendered(x, Pieces(rest)))
      invariant before + Missing(x, Tokens(segment)) == missing + Missing(x, Tokens(rest))
      decreases |rest|
    {
      var text;
      text, missing, rest := ResolveNext(x, rest, missing);
      if text.Failed? {
        return text, missing;
      }
      Regroup(out, text.value, Rendered(x, Pieces(rest)));
      out := out + text.value;
    }
    NothingAfter(x, Done(out));
    r := Done(out);
  }
}
