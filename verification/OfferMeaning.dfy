/** What the offers of a session say: their order, and each caution, read off
    the inputs themselves. */
module OfferMeaning {
  import opened Wrappers
  import opened Ordering
  import opened CalibrationChecks
  import opened SessionRanking

  // ---- The order ----

  /** Known before unknown, and the smaller of two known. */
  predicate NearerDays(a: Option<int>, b: Option<int>) {
    a.Some? && (b.None? || a.value < b.value)
  }

  predicate NearerTurn(a: Option<real>, b: Option<real>) {
    a.Some? && (b.None? || a.value < b.value)
  }

  /** One that can be pinned before one that can't, a master before a raw set,
      then the nearer capture, then the smaller rotation. */
  predicate RanksFirst(a: Ranked, b: Ranked) {
    if a.blocked != b.blocked then b.blocked
    else if a.raw != b.raw then b.raw
    else if a.days != b.days then NearerDays(a.days, b.days)
    else NearerTurn(a.rotation, b.rotation)
  }

  lemma DaysSay(a: Option<int>, b: Option<int>)
    ensures KnownFirst(IntOrder)(a, b).Less? <==> NearerDays(a, b)
    ensures KnownFirst(IntOrder)(a, b).Equal? <==> a == b
  {
    assert KnownFirst(IntOrder)(a, b) ==
      if a.Some? && b.Some? then IntOrder(a.value, b.value) else if a.Some? then Less else if b.Some? then Greater else Equal;
  }

  lemma TurnsSay(a: Option<real>, b: Option<real>)
    ensures KnownFirst(RealOrder)(a, b).Less? <==> NearerTurn(a, b)
    ensures KnownFirst(RealOrder)(a, b).Equal? <==> a == b
  {
    assert KnownFirst(RealOrder)(a, b) ==
      if a.Some? && b.Some? then RealOrder(a.value, b.value) else if a.Some? then Less else if b.Some? then Greater else Equal;
  }

  lemma NearestSays(a: Ranked, b: Ranked)
    ensures var nearest := Lexicographic(By(Days, KnownFirst(IntOrder)), By(Rotation, KnownFirst(RealOrder)));
      && (nearest(a, b).Less? <==> if a.days != b.days then NearerDays(a.days, b.days) else NearerTurn(a.rotation, b.rotation))
      && (nearest(a, b).Equal? <==> a.days == b.days && a.rotation == b.rotation)
  {
    var nearest := Lexicographic(By(Days, KnownFirst(IntOrder)), By(Rotation, KnownFirst(RealOrder)));
    assert By(Days, KnownFirst(IntOrder))(a, b) == KnownFirst(IntOrder)(a.days, b.days);
    assert By(Rotation, KnownFirst(RealOrder))(a, b) == KnownFirst(RealOrder)(a.rotation, b.rotation);
    DaysSay(a.days, b.days);
    TurnsSay(a.rotation, b.rotation);
    assert nearest(a, b) == Then(KnownFirst(IntOrder)(a.days, b.days), KnownFirst(RealOrder)(a.rotation, b.rotation));
  }

  lemma RankSays(a: Ranked, b: Ranked)
    ensures SessionRank()(a, b).Less? <==> RanksFirst(a, b)
    ensures SessionRank()(a, b).Equal? <==> a.blocked == b.blocked && a.raw == b.raw && a.days == b.days && a.rotation == b.rotation
  {
    NearestSays(a, b);
    var nearest := Lexicographic(By(Days, KnownFirst(IntOrder)), By(Rotation, KnownFirst(RealOrder)));
    var byForm := Lexicographic(By(Raw, BoolOrder), nearest);
    assert SessionRank() == Lexicographic(By(Blocked, BoolOrder), byForm);
    assert SessionRank()(a, b) == Then(BoolOrder(a.blocked, b.blocked), byForm(a, b));
    assert byForm(a, b) == Then(BoolOrder(a.raw, b.raw), nearest(a, b));
  }

  /** Best first: none ranks before one ahead of it, and of those that rank the
      same the smaller id comes first. */
  lemma BestFirst(kind: Kind, light: SessionLight, inputs: seq<SessionInput>, s: Settings, i: nat, j: nat)
    requires i < j < |SortBy(RankThenId(), Offers(kind, light, inputs, s))|
    ensures var ranked := SortBy(RankThenId(), Offers(kind, light, inputs, s));
      && !RanksFirst(ranked[j], ranked[i])
      && (!RanksFirst(ranked[i], ranked[j]) ==> ranked[i].offer.input.id <= ranked[j].offer.input.id)
  {
    OffersAreTheEligible(kind, light, inputs, s);
    var ranked := SortBy(RankThenId(), Offers(kind, light, inputs, s));
    NoneAhead(ranked[i], ranked[j]);
  }

  lemma NoneAhead(a: Ranked, b: Ranked)
    requires !RankThenId()(a, b).Greater?
    ensures !RanksFirst(b, a) && (!RanksFirst(a, b) ==> a.offer.input.id <= b.offer.input.id)
  {
    RankIsPreorder();
    RankSays(a, b);
    RankSays(b, a);
    assert RankThenId() == Lexicographic(SessionRank(), By(Id, IntOrder));
    assert By(Id, IntOrder)(a, b) == IntOrder(a.offer.input.id, b.offer.input.id);
    assert RankThenId()(a, b) == Then(SessionRank()(a, b), IntOrder(a.offer.input.id, b.offer.input.id));
    assert SessionRank()(b, a) == Flip(SessionRank()(a, b));
  }

  /** The best two are as good: both can be pinned, of one form, as near and as
      little rotated. */
  predicate IsTie(ranked: seq<Ranked>) {
    && |ranked| >= 2 && ranked[0].offer.cautions == [] && ranked[1].offer.cautions == []
    && ranked[0].raw == ranked[1].raw && ranked[0].days == ranked[1].days && ranked[0].rotation == ranked[1].rotation
  }

  /** A tie at the top is the first offer's one caution; else every offer
      stands as it is. */
  lemma TieSays(kind: Kind, light: SessionLight, inputs: seq<SessionInput>, s: Settings)
    ensures var ranked := SortBy(RankThenId(), Offers(kind, light, inputs, s));
      var offers := Matched(kind, light, inputs, s);
      && |offers| == |ranked|
      && forall i :: 0 <= i < |offers| ==>
           offers[i] == if i == 0 && IsTie(ranked) then ranked[0].offer.(cautions := [RankingTie]) else ranked[i].offer
  {
    var ranked := SortBy(RankThenId(), Offers(kind, light, inputs, s));
    OffersAreTheEligible(kind, light, inputs, s);
    forall r | r in ranked ensures r.blocked <==> r.offer.cautions != [] {
      assert IsTheOffer(kind, light, s, r);
      OfferSays(kind, light, r.offer.input, s);
    }
    TopSays(ranked);
  }

  lemma TopSays(ranked: seq<Ranked>)
    requires forall r :: r in ranked ==> (r.blocked <==> r.offer.cautions != [])
    ensures ranked != [] ==>
      TieMarked(ranked)[0].offer == if IsTie(ranked) then ranked[0].offer.(cautions := [RankingTie]) else ranked[0].offer
  {
    if |ranked| >= 2 {
      RankSays(ranked[0], ranked[1]);
      assert ranked[0] in ranked && ranked[1] in ranked;
      assert [] + [RankingTie] == [RankingTie];
    }
  }

  // ---- What an offer ranks by ----

  /** How many nights or days lie between them, where both are known. */
  predicate AreApart(light: Option<int>, input: Option<int>, days: int) {
    light.Some? && input.Some? && days >= 0 && (light.value - input.value == days || input.value - light.value == days)
  }

  lemma OfferSays(kind: Kind, light: SessionLight, input: SessionInput, s: Settings)
    ensures var r := RankedOffer(kind, light, input, s);
      && r.offer.input == input && r.offer.criteria == HardChecks(kind, light, input, s)
      && (r.blocked <==> r.offer.cautions != []) && (r.raw <==> input.form == RawSet)
      && (r.days.None? <==> light.night.None? || input.captured.None?)
      && (r.days.Some? ==> AreApart(light.night, input.captured, r.days.value))
      && (r.rotation.Some? ==> kind == Flat)
  {
  }

  /** The rotation an offer ranks by is its widest frame's, rounded. */
  lemma RotationIsWidest(light: SessionLight, input: SessionInput, s: Settings)
    ensures var r := RotationOf(Flat, light, input, s);
      && (r.Some? <==> light.rotatorDeg.Some? && AllAngles(input.rotatorDeg).Some?)
      && (r.Some? ==>
            && (exists k :: 0 <= k < |input.rotatorDeg| && IsTurned(light, input, k, r.value))
            && forall k, turn :: 0 <= k < |input.rotatorDeg| && IsTurned(light, input, k, turn) ==> turn <= r.value)
  {
    var r := RotationOf(Flat, light, input, s);
    if r.Some? {
      var angles, x := AllAngles(input.rotatorDeg).value, light.rotatorDeg.value;
      var widest := Widest(x, angles);
      var k :| 0 <= k < |angles| && widest == AngleBetween(x, angles[k]);
      assert IsTurned(light, input, k, r.value);
      forall k, turn | 0 <= k < |input.rotatorDeg| && IsTurned(light, input, k, turn) ensures turn <= r.value {
        HundredthsGrow(AngleBetween(x, angles[k]), widest);
      }
    }
  }

  predicate IsTurned(light: SessionLight, input: SessionInput, k: nat, turn: real)
    requires k < |input.rotatorDeg|
  {
    light.rotatorDeg.Some? && input.rotatorDeg[k].Some?
    && turn == Hundredths(AngleBetween(light.rotatorDeg.value, input.rotatorDeg[k].value))
  }

  /** Rounded to the nearest hundredth, the half up. */
  lemma HundredthsRound(x: real) returns (n: int)
    ensures Hundredths(x) == n as real / 100.0 && Hundredths(x) - 0.005 <= x < Hundredths(x) + 0.005
  {
    n := (x * 100.0 + 0.5).Floor;
  }

  // ---- The cautions ----

  /** The criterion of some check that is not settled compatible. */
  predicate IsOpen(rows: seq<Row>, c: Criterion) {
    exists k :: 0 <= k < |rows| && rows[k].criterion == c && !rows[k].verdict.Compatible?
  }

  lemma {:induction false} BlockingSays(rows: seq<Row>)
    ensures forall c :: c in Blocking(rows) <==> IsOpen(rows, c)
  {
    if rows != [] {
      BlockingSays(rows[1..]);
      forall c ensures c in Blocking(rows) <==> IsOpen(rows, c) {
        if IsOpen(rows[1..], c) {
          var k :| 0 <= k < |rows[1..]| && rows[1..][k].criterion == c && !rows[1..][k].verdict.Compatible?;
          assert rows[k + 1].criterion == c;
        }
        if k :| 0 <= k < |rows| && rows[k].criterion == c && !rows[k].verdict.Compatible? {
          if k > 0 { assert rows[1..][k - 1] == rows[k]; }
        }
      }
    }
  }

  predicate IsRaised(kind: Kind, light: SessionLight, input: SessionInput, s: Settings, c: Caution) {
    match c
    case CriterionUnknown(criteria) => criteria != [] && criteria == Blocking(HardChecks(kind, light, input, s))
    case AgeUnknown => light.night.None? || input.captured.None?
    case OutsideWindow(days, window) =>
      AreApart(light.night, input.captured, days) && days > window && window == if kind == Flat then s.windowNights else s.windowDays
    case RotationWarning(degrees) => RotationOf(kind, light, input, s) == Some(degrees) && degrees > s.fineWithin
    case Unavailable => !input.available
    case RankingTie => false
  }

  lemma InFour<T>(a: seq<T>, b: seq<T>, c: seq<T>, d: seq<T>)
    ensures forall x :: x in a + b + c + d <==> x in a || x in b || x in c || x in d
  {
  }

  lemma AgeSays(kind: Kind, light: SessionLight, input: SessionInput, s: Settings, age: seq<Caution>)
    requires var days := DaysApart(light.night, input.captured);
      age == if days.None? then [AgeUnknown] else If(days.value > Window(kind, s), OutsideWindow(days.value, Window(kind, s)))
    ensures forall c :: c in age <==> (c.AgeUnknown? || c.OutsideWindow?) && IsRaised(kind, light, input, s, c)
    ensures |age| <= 1
  {
  }

  lemma OthersSay(kind: Kind, light: SessionLight, input: SessionInput, s: Settings, open: seq<Caution>, turned: seq<Caution>, gone: seq<Caution>)
    requires var unknown := Blocking(HardChecks(kind, light, input, s)); open == If(unknown != [], CriterionUnknown(unknown))
    requires var rotation := RotationOf(kind, light, input, s);
      turned == if rotation.None? then [] else If(rotation.value > s.fineWithin, RotationWarning(rotation.value))
    requires gone == If(!input.available, Unavailable)
    ensures forall c :: c in open <==> c.CriterionUnknown? && IsRaised(kind, light, input, s, c)
    ensures forall c :: c in turned <==> c.RotationWarning? && IsRaised(kind, light, input, s, c)
    ensures forall c :: c in gone <==> c.Unavailable? && IsRaised(kind, light, input, s, c)
    ensures |open| <= 1 && |turned| <= 1 && |gone| <= 1
  {
  }

  /** An offer raises exactly these cautions: what its checks leave open, a
      capture too far off or of unknown age, a rotation past the fine one, and
      an input that can't be read. */
  lemma CautionsSay(kind: Kind, light: SessionLight, input: SessionInput, s: Settings)
    ensures forall c :: c in Cautions(kind, light, input, s) <==> IsRaised(kind, light, input, s, c)
    ensures |Cautions(kind, light, input, s)| <= 4
  {
    var unknown, days := Blocking(HardChecks(kind, light, input, s)), DaysApart(light.night, input.captured);
    var rotation := RotationOf(kind, light, input, s);
    var open := If(unknown != [], CriterionUnknown(unknown));
    var age := if days.None? then [AgeUnknown] else If(days.value > Window(kind, s), OutsideWindow(days.value, Window(kind, s)));
    var turned := if rotation.None? then [] else If(rotation.value > s.fineWithin, RotationWarning(rotation.value));
    var gone := If(!input.available, Unavailable);
    AgeSays(kind, light, input, s, age);
    OthersSay(kind, light, input, s, open, turned, gone);
    InFour(open, age, turned, gone);
  }
}
