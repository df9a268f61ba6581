/** The offers one light session gets of one kind of calibration, best first. */
module SessionRanking {
  import opened Wrappers
  import opened Sequences
  import opened Ordering
  import opened CalibrationChecks

  datatype Caution =
    | CriterionUnknown(criteria: seq<Criterion>)
    | OutsideWindow(days: int, window: nat)
    | AgeUnknown
    | RotationWarning(degrees: real)
    | Unavailable
    | RankingTie

  datatype Offer = Offer(input: SessionInput, criteria: seq<Row>, cautions: seq<Caution>)

  /** An offer and what it ranks by. */
  datatype Ranked = Ranked(blocked: bool, raw: bool, days: Option<int>, rotation: Option<real>, offer: Offer)

  // ---- One input ----

  /** The criteria that keep an evaluation from being compatible. */
  function Blocking(rows: seq<Row>): (c: seq<Criterion>)
    ensures c == [] <==> forall k :: 0 <= k < |rows| ==> rows[k].verdict.Compatible?
  {
    if rows == [] then []
    else (if rows[0].verdict.Compatible? then [] else [rows[0].criterion]) + Blocking(rows[1..])
  }

  function DaysApart(light: Option<int>, input: Option<int>): (d: Option<int>)
    ensures d.Some? ==> d.value >= 0
  {
    if light.None? || input.None? then None
    else Some(if light.value >= input.value then light.value - input.value else input.value - light.value)
  }

  function Window(kind: Kind, s: Settings): nat {
    if kind.Flat? then s.windowNights else s.windowDays
  }

  function If(held: bool, c: Caution): seq<Caution> {
    if held then [c] else []
  }

  /** The cautions, in the order they are raised. */
  function Raised(unknown: seq<Criterion>, days: Option<int>, window: nat, rotation: Option<real>, fine: real, available: bool): seq<Caution> {
    If(unknown != [], CriterionUnknown(unknown))
    + (if days.None? then [AgeUnknown] else If(days.value > window, OutsideWindow(days.value, window)))
    + (if rotation.None? then [] else If(rotation.value > fine, RotationWarning(rotation.value)))
    + If(!available, Unavailable)
  }

  method RaiseCautions(unknown: seq<Criterion>, days: Option<int>, window: nat, rotation: Option<real>, fine: real, available: bool)
    returns (cautions: seq<Caution>)
    ensures cautions == Raised(unknown, days, window, rotation, fine, available)
  {
    cautions := If(unknown != [], CriterionUnknown(unknown));
    match days {
      case Some(d) => if d > window { cautions := cautions + [OutsideWindow(d, window)]; }
      case None => cautions := cautions + [AgeUnknown];
    }
    ghost var soFar := If(unknown != [], CriterionUnknown(unknown))
      + (if days.None? then [AgeUnknown] else If(days.value > window, OutsideWindow(days.value, window)));
    assert cautions == soFar;
    if rotation.Some? && rotation.value > fine {
      cautions := cautions + [RotationWarning(rotation.value)];
    }
    assert cautions == soFar + if rotation.None? then [] else If(rotation.value > fine, RotationWarning(rotation.value));
    if !available {
      cautions := cautions + [Unavailable];
    }
  }

  function Cautions(kind: Kind, light: SessionLight, input: SessionInput, s: Settings): seq<Caution> {
    Raised(Blocking(HardChecks(kind, light, input, s)), DaysApart(light.night, input.captured), Window(kind, s),
      RotationOf(kind, light, input, s), s.fineWithin, input.available)
  }

  function RankedOffer(kind: Kind, light: SessionLight, input: SessionInput, s: Settings): Ranked {
    var cautions := Cautions(kind, light, input, s);
    Ranked(cautions != [], !input.form.Master?, DaysApart(light.night, input.captured), RotationOf(kind, light, input, s),
      Offer(input, HardChecks(kind, light, input, s), cautions))
  }

  method SessionOffer(kind: Kind, light: SessionLight, input: SessionInput, s: Settings) returns (r: Option<Ranked>)
    requires input.kind == kind
    ensures r == if Offered(kind, light, input, s) then Some(RankedOffer(kind, light, input, s)) else None
  {
    var criteria := HardChecks(kind, light, input, s);
    if AnyIncompatible(criteria) {
      return None;
    }
    var rotation := RotationOf(kind, light, input, s);
    var days := DaysApart(light.night, input.captured);
    var unknown := Blocking(criteria);
    var cautions := RaiseCautions(unknown, days, Window(kind, s), rotation, s.fineWithin, input.available);
    r := Some(Ranked(cautions != [], !input.form.Master?, days, rotation, Offer(input, criteria, cautions)));
  }

  /** No caution means every check is settled, in the window, finely rotated
      and readable; and only then. */
  lemma UncautionedMeansAllWell(kind: Kind, light: SessionLight, input: SessionInput, s: Settings)
    ensures Cautions(kind, light, input, s) == [] <==>
      && (forall k :: 0 <= k < |HardChecks(kind, light, input, s)| ==> HardChecks(kind, light, input, s)[k].verdict.Compatible?)
      && light.night.Some? && input.captured.Some?
      && DaysApart(light.night, input.captured).value <= Window(kind, s)
      && (RotationOf(kind, light, input, s).Some? ==> RotationOf(kind, light, input, s).value <= s.fineWithin)
      && input.available
  {
    var unknown := Blocking(HardChecks(kind, light, input, s));
    var days := DaysApart(light.night, input.captured);
    assert |If(unknown != [], CriterionUnknown(unknown))| == 0 <==> unknown == [];
  }

  // ---- The ranking ----

  function Blocked(r: Ranked): bool { r.blocked }

  function Raw(r: Ranked): bool { r.raw }

  function Days(r: Ranked): Option<int> { r.days }

  function Rotation(r: Ranked): Option<real> { r.rotation }

  function Id(r: Ranked): int { r.offer.input.id }

  /** Pinnable first, masters first, known and nearest captures first, then
      known and smallest rotations. */
  function SessionRank(): Comparison<Ranked> {
    Lexicographic(By(Blocked, BoolOrder), Lexicographic(By(Raw, BoolOrder),
      Lexicographic(By(Days, KnownFirst(IntOrder)), By(Rotation, KnownFirst(RealOrder)))))
  }

  function RankThenId(): Comparison<Ranked> {
    Lexicographic(SessionRank(), By(Id, IntOrder))
  }

  /** The ranking is a total preorder, and so is the order the offers take. */
  lemma RankIsPreorder()
    ensures Preorder(SessionRank()) && Preorder(RankThenId())
  {
    KnownFirstIsPreorder(IntOrder);
    KnownFirstIsPreorder(RealOrder);
    ByIsPreorder(Days, KnownFirst(IntOrder));
    ByIsPreorder(Rotation, KnownFirst(RealOrder));
    ByIsPreorder(Raw, BoolOrder);
    ByIsPreorder(Blocked, BoolOrder);
    ByIsPreorder(Id, IntOrder);
    var nearest := Lexicographic(By(Days, KnownFirst(IntOrder)), By(Rotation, KnownFirst(RealOrder)));
    LexicographicIsPreorder(By(Days, KnownFirst(IntOrder)), By(Rotation, KnownFirst(RealOrder)));
    LexicographicIsPreorder(By(Raw, BoolOrder), nearest);
    LexicographicIsPreorder(By(Blocked, BoolOrder), Lexicographic(By(Raw, BoolOrder), nearest));
    LexicographicIsPreorder(SessionRank(), By(Id, IntOrder));
  }

  // ---- Matching ----

  function OfferOf(kind: Kind, light: SessionLight, s: Settings): SessionInput -> Option<Ranked> {
    input => if Offered(kind, light, input, s) then Some(RankedOffer(kind, light, input, s)) else None
  }

  /** The offers of `inputs` in their own order. */
  function Offers(kind: Kind, light: SessionLight, inputs: seq<SessionInput>, s: Settings): seq<Ranked> {
    Collected(OfferOf(kind, light, s), inputs)
  }

  /** A best offer that could be pinned but ranks with the next is only suggested. */
  function TieMarked(ranked: seq<Ranked>): (r: seq<Ranked>)
    ensures |r| == |ranked| && forall i :: 0 < i < |r| ==> r[i] == ranked[i]
  {
    if |ranked| >= 2 && !ranked[0].blocked && SessionRank()(ranked[0], ranked[1]).Equal? then
      [ranked[0].(offer := ranked[0].offer.(cautions := ranked[0].offer.cautions + [RankingTie]))] + ranked[1..]
    else ranked
  }

  function Matched(kind: Kind, light: SessionLight, inputs: seq<SessionInput>, s: Settings): seq<Offer> {
    var ranked := TieMarked(SortBy(RankThenId(), Offers(kind, light, inputs, s)));
    seq(|ranked|, i requires 0 <= i < |ranked| => ranked[i].offer)
  }

  method CollectOffers(kind: Kind, light: SessionLight, inputs: seq<SessionInput>, s: Settings) returns (ranked: seq<Ranked>)
    ensures ranked == Offers(kind, light, inputs, s)
  {
    var f := OfferOf(kind, light, s);
    ranked := [];
    for i := 0 to |inputs|
      invariant ranked == Collected(f, inputs[..i])
    {
      assert inputs[..i + 1][..i] == inputs[..i];
      if inputs[i].kind == kind {
        var offer := SessionOffer(kind, light, inputs[i], s);
        ranked := ranked + Listed(offer);
      } else {
        assert f(inputs[i]) == None;
      }
    }
    assert inputs[..|inputs|] == inputs;
  }

  method MatchSession(kind: Kind, light: SessionLight, inputs: seq<SessionInput>, s: Settings) returns (offers: seq<Offer>)
    ensures offers == Matched(kind, light, inputs, s)
  {
    var ranked := CollectOffers(kind, light, inputs, s);
    ranked := SortBy(RankThenId(), ranked);
    if |ranked| >= 2 && !ranked[0].blocked && SessionRank()(ranked[0], ranked[1]).Equal? {
      var tied := ranked[0].offer.cautions + [RankingTie];
      ranked := [ranked[0].(offer := ranked[0].offer.(cautions := tied))] + ranked[1..];
    }
    offers := seq(|ranked|, i requires 0 <= i < |ranked| => ranked[i].offer);
  }

  // ---- What is offered ----

  function Passing(kind: Kind, light: SessionLight, s: Settings): SessionInput -> Option<SessionInput> {
    input => if Offered(kind, light, input, s) then Some(input) else None
  }

  function Eligible(kind: Kind, light: SessionLight, inputs: seq<SessionInput>, s: Settings): seq<SessionInput> {
    Collected(Passing(kind, light, s), inputs)
  }

  function InputOf(r: Ranked): Option<SessionInput> { Some(r.offer.input) }

  function InputsOf(ranked: seq<Ranked>): seq<SessionInput> {
    Collected(InputOf, ranked)
  }

  ghost predicate IsTheOffer(kind: Kind, light: SessionLight, s: Settings, r: Ranked) {
    OfferOf(kind, light, s)(r.offer.input) == Some(r)
  }

  lemma {:induction false} OffersOfEligible(f: SessionInput -> Option<Ranked>, g: SessionInput -> Option<SessionInput>, inputs: seq<SessionInput>)
    requires forall x :: f(x).Some? ==> g(x) == Some(x) && f(x).value.offer.input == x
    requires forall x :: f(x).None? ==> g(x).None?
    ensures InputsOf(Collected(f, inputs)) == Collected(g, inputs)
    ensures forall x :: x in Collected(g, inputs) ==> x in inputs
    ensures forall r :: r in Collected(f, inputs) ==> f(r.offer.input) == Some(r)
  {
    if inputs != [] {
      var last := Listed(f(inputs[|inputs| - 1]));
      OffersOfEligible(f, g, inputs[..|inputs| - 1]);
      CollectedAdd(InputOf, Collected(f, inputs[..|inputs| - 1]), last);
      assert last != [] ==> last[..0] == [] && InputsOf(last) == [last[0].offer.input];
    }
  }

  lemma SortedOffers(f: SessionInput -> Option<Ranked>, g: SessionInput -> Option<SessionInput>, inputs: seq<SessionInput>)
    requires forall x :: f(x).Some? ==> g(x) == Some(x) && f(x).value.offer.input == x
    requires forall x :: f(x).None? ==> g(x).None?
    ensures var ranked := SortBy(RankThenId(), Collected(f, inputs));
      && multiset(InputsOf(ranked)) == multiset(Collected(g, inputs))
      && Sorted(RankThenId(), ranked)
      && forall r :: r in ranked ==> f(r.offer.input) == Some(r)
  {
    var offers := Collected(f, inputs);
    RankIsPreorder();
    SortSorts(RankThenId(), offers);
    OffersOfEligible(f, g, inputs);
    CollectedPermutes(InputOf, SortBy(RankThenId(), offers), offers);
    SameMembers(SortBy(RankThenId(), offers), offers);
  }

  /** What a session is offered is its eligible inputs, each once, best first:
      no offer has an incompatible check and no eligible input is left out. */
  lemma OffersAreTheEligible(kind: Kind, light: SessionLight, inputs: seq<SessionInput>, s: Settings)
    ensures var ranked := SortBy(RankThenId(), Offers(kind, light, inputs, s));
      && multiset(InputsOf(ranked)) == multiset(Eligible(kind, light, inputs, s))
      && Sorted(RankThenId(), ranked)
      && forall r :: r in ranked ==> IsTheOffer(kind, light, s, r)
  {
    SortedOffers(OfferOf(kind, light, s), Passing(kind, light, s), inputs);
  }

  /** The best offer may be pinned unasked exactly when it raises no caution of
      its own and ranks before every other, though only the next is compared. */
  lemma TopStandsAlone(kind: Kind, light: SessionLight, inputs: seq<SessionInput>, s: Settings)
    ensures var ranked := SortBy(RankThenId(), Offers(kind, light, inputs, s));
      var offers := Matched(kind, light, inputs, s);
      |offers| == |ranked| && (ranked != [] ==>
        (offers[0].cautions == [] <==>
          Cautions(kind, light, ranked[0].offer.input, s) == [] && forall i :: 0 < i < |ranked| ==> SessionRank()(ranked[0], ranked[i]).Less?))
  {
    OffersAreTheEligible(kind, light, inputs, s);
    var ranked := SortBy(RankThenId(), Offers(kind, light, inputs, s));
    if ranked != [] {
      assert ranked[0] in ranked && IsTheOffer(kind, light, s, ranked[0]);
      TopIsFirst(ranked);
    }
  }

  lemma TopIsFirst(ranked: seq<Ranked>)
    requires ranked != [] && Sorted(RankThenId(), ranked) && ranked[0].blocked == (ranked[0].offer.cautions != [])
    ensures TieMarked(ranked)[0].offer.cautions == [] <==>
      ranked[0].offer.cautions == [] && forall i :: 0 < i < |ranked| ==> SessionRank()(ranked[0], ranked[i]).Less?
  {
    RankIsPreorder();
    var rank := SessionRank();
    assert forall i, j :: 0 <= i < j < |ranked| ==> !RankThenId()(ranked[i], ranked[j]).Greater? && !rank(ranked[i], ranked[j]).Greater?;
    if |ranked| >= 2 && rank(ranked[0], ranked[1]).Less? {
      forall i | 0 < i < |ranked| ensures rank(ranked[0], ranked[i]).Less? {
        assert i > 1 ==> !rank(ranked[1], ranked[i]).Greater?;
      }
    }
  }

  // ---- The order inputs come in ----

  ghost predicate OneInputPerId(inputs: seq<SessionInput>) {
    forall x, y :: x in inputs && y in inputs && x.id == y.id ==> x == y
  }

  /** The offers do not depend on the order the inputs came in. */
  lemma OrderOfInputsIsNothing(kind: Kind, light: SessionLight, a: seq<SessionInput>, b: seq<SessionInput>, s: Settings)
    requires multiset(a) == multiset(b) && OneInputPerId(a)
    ensures Matched(kind, light, a, s) == Matched(kind, light, b, s)
  {
    CollectedPermutes(OfferOf(kind, light, s), a, b);
    OneOfferEach(OfferOf(kind, light, s), a);
    RankIsPreorder();
    SortsAlike(RankThenId(), Offers(kind, light, a, s), Offers(kind, light, b, s));
  }

  lemma EqualMeansOneId(x: Ranked, y: Ranked)
    requires RankThenId()(x, y).Equal?
    ensures x.offer.input.id == y.offer.input.id
  {
    assert RankThenId()(x, y) == Then(SessionRank()(x, y), By(Id, IntOrder)(x, y));
    assert By(Id, IntOrder)(x, y) == IntOrder(Id(x), Id(y));
  }

  lemma OneOfferEach(f: SessionInput -> Option<Ranked>, inputs: seq<SessionInput>)
    requires forall x :: f(x).Some? ==> f(x).value.offer.input == x
    requires OneInputPerId(inputs)
    ensures Decides(RankThenId(), Collected(f, inputs))
  {
    MadeFrom(f, inputs);
    var offers := Collected(f, inputs);
    forall x, y | x in offers && y in offers && RankThenId()(x, y).Equal? ensures x == y {
      EqualMeansOneId(x, y);
      var i :| Makes(f, inputs, i, x);
      var j :| Makes(f, inputs, j, y);
      assert inputs[i] in inputs && inputs[j] in inputs;
    }
  }

  // ---- Exposure mismatch ----

  /** No check but the exposure turns the dark away. */
  predicate ExposureAlone(light: SessionLight, dark: SessionInput, s: Settings) {
    var rows := HardChecks(Dark, light, dark, s);
    dark.kind.Dark? && forall k :: 0 <= k < |rows| ==> rows[k].criterion.ExposureCheck? || !rows[k].verdict.Incompatible?
  }

  function ExposureOf(light: SessionLight, s: Settings): SessionInput -> Option<Row> {
    dark => if ExposureAlone(light, dark, s) then Some(ExposureRow(light, dark)) else None
  }

  datatype Mismatch = Mismatch(channel: Option<string>, lights: set<string>, darks: set<string>)

  /** The exposures of the darks the exposure alone decides. */
  ghost predicate AreTheExposures(light: SessionLight, darks: seq<SessionInput>, s: Settings, exposures: set<string>) {
    forall e :: e in exposures <==> exists i :: 0 <= i < |darks| && DarkExposure(light, darks[i], s, e)
  }

  method ExposureMismatch(light: SessionLight, darks: seq<SessionInput>, s: Settings) returns (m: Option<Mismatch>)
    ensures m.Some? <==> Mismatched(light, darks, s)
    ensures m.Some? ==>
      && m.value.channel == Get(light.evidence, Filter)
      && Get(light.evidence, Exposure).Some? && m.value.lights == {Get(light.evidence, Exposure).value}
      && AreTheExposures(light, darks, s, m.value.darks)
  {
    var rows := CollectRows(light, darks, s);
    RowsDecide(light, darks, s);
    if rows == [] || exists k :: 0 <= k < |rows| && !rows[k].verdict.Incompatible? {
      return None;
    }
    var lights := set k | 0 <= k < |rows| && rows[k].light.Some? :: rows[k].light.value;
    var others := set k | 0 <= k < |rows| && rows[k].input.Some? :: rows[k].input.value;
    RowsTell(light, darks, s);
    assert rows[0].verdict.Incompatible? && rows[0].light.Some?;
    m := Some(Mismatch(Get(light.evidence, Filter), lights, others));
  }

  lemma RowsAre(light: SessionLight, darks: seq<SessionInput>, s: Settings)
    ensures forall r :: r in Collected(ExposureOf(light, s), darks) <==>
      exists i :: 0 <= i < |darks| && ExposureAlone(light, darks[i], s) && r == ExposureRow(light, darks[i])
  {
    var of := ExposureOf(light, s);
    MadeFrom(of, darks);
    forall r ensures r in Collected(of, darks) <==>
        exists i :: 0 <= i < |darks| && ExposureAlone(light, darks[i], s) && r == ExposureRow(light, darks[i])
    {
      if i :| Makes(of, darks, i, r) {
        assert ExposureAlone(light, darks[i], s);
      }
      if i :| 0 <= i < |darks| && ExposureAlone(light, darks[i], s) && r == ExposureRow(light, darks[i]) {
        assert Makes(of, darks, i, r);
      }
    }
  }

  lemma RowsDecide(light: SessionLight, darks: seq<SessionInput>, s: Settings)
    ensures var rows := Collected(ExposureOf(light, s), darks);
      Mismatched(light, darks, s) <==> rows != [] && forall k :: 0 <= k < |rows| ==> rows[k].verdict.Incompatible?
  {
    RowsAre(light, darks, s);
    var rows := Collected(ExposureOf(light, s), darks);
    forall d | d in darks && ExposureAlone(light, d, s) ensures ExposureRow(light, d) in rows {
      var i :| 0 <= i < |darks| && darks[i] == d;
    }
    assert rows != [] ==> rows[0] in rows;
    assert forall k :: 0 <= k < |rows| ==> rows[k] in rows;
  }

  lemma RowsTell(light: SessionLight, darks: seq<SessionInput>, s: Settings)
    ensures var rows := Collected(ExposureOf(light, s), darks);
      && (forall k :: 0 <= k < |rows| ==> rows[k].light == Get(light.evidence, Exposure))
      && AreTheExposures(light, darks, s, set k | 0 <= k < |rows| && rows[k].input.Some? :: rows[k].input.value)
  {
    RowsAre(light, darks, s);
    var rows := Collected(ExposureOf(light, s), darks);
    forall k | 0 <= k < |rows| ensures rows[k].light == Get(light.evidence, Exposure) {
      assert rows[k] in rows;
    }
    var exposures := set k | 0 <= k < |rows| && rows[k].input.Some? :: rows[k].input.value;
    forall e ensures e in exposures <==> exists i :: 0 <= i < |darks| && DarkExposure(light, darks[i], s, e) {
      if e in exposures {
        var k :| 0 <= k < |rows| && rows[k].input.Some? && rows[k].input.value == e;
        assert rows[k] in rows;
        var i :| 0 <= i < |darks| && ExposureAlone(light, darks[i], s) && rows[k] == ExposureRow(light, darks[i]);
        assert DarkExposure(light, darks[i], s, e);
      }
      if i :| 0 <= i < |darks| && DarkExposure(light, darks[i], s, e) {
        assert ExposureRow(light, darks[i]) in rows;
      }
    }
  }

  predicate DarkExposure(light: SessionLight, dark: SessionInput, s: Settings, e: string) {
    ExposureAlone(light, dark, s) && Get(dark.evidence, Exposure) == Some(e)
  }

  /** Some dark fits but for its exposure, and so does none with another. */
  ghost predicate Mismatched(light: SessionLight, darks: seq<SessionInput>, s: Settings) {
    && (exists d :: d in darks && ExposureAlone(light, d, s))
    && forall d :: d in darks && ExposureAlone(light, d, s) ==> ExposureRow(light, d).verdict.Incompatible?
  }

  method CollectRows(light: SessionLight, darks: seq<SessionInput>, s: Settings) returns (rows: seq<Row>)
    ensures rows == Collected(ExposureOf(light, s), darks)
  {
    rows := [];
    for i := 0 to |darks|
      invariant rows == Collected(ExposureOf(light, s), darks[..i])
    {
      assert darks[..i + 1][..i] == darks[..i];
      rows := rows + Listed(ExposureOf(light, s)(darks[i]));
    }
    assert darks[..|darks|] == darks;
  }

  lemma DarkIsOfferedBut(light: SessionLight, dark: SessionInput, s: Settings)
    ensures Offered(Dark, light, dark, s) <==> ExposureAlone(light, dark, s) && !ExposureRow(light, dark).verdict.Incompatible?
  {
    var rows := HardChecks(Dark, light, dark, s);
    assert rows[6] == ExposureRow(light, dark);
    assert forall k :: 0 <= k < |rows| && rows[k].criterion.ExposureCheck? ==> k == 6;
  }

  lemma NoneOffered(kind: Kind, light: SessionLight, inputs: seq<SessionInput>, s: Settings)
    ensures Matched(kind, light, inputs, s) == [] <==> forall x :: x in inputs ==> !Offered(kind, light, x, s)
  {
    NothingMade(OfferOf(kind, light, s), inputs);
    var offers := Offers(kind, light, inputs, s);
    SameMembers(SortBy(RankThenId(), offers), offers);
    forall x ensures OfferOf(kind, light, s)(x).None? <==> !Offered(kind, light, x, s) {
    }
  }

  /** A mismatch is reported exactly when no dark is offered at all and the
      exposure alone turns one of them away. */
  lemma MismatchMeansNoDark(light: SessionLight, darks: seq<SessionInput>, s: Settings)
    ensures Mismatched(light, darks, s) <==>
      Matched(Dark, light, darks, s) == [] && exists d :: d in darks && ExposureAlone(light, d, s)
  {
    NoneOffered(Dark, light, darks, s);
    forall d ensures Offered(Dark, light, d, s) <==> ExposureAlone(light, d, s) && !ExposureRow(light, d).verdict.Incompatible? {
      DarkIsOfferedBut(light, d, s);
    }
  }
}
