/** Grading goals for a night, and finding the next night that suits one. */
module NightSearch {
  import opened Wrappers
  import opened Text
  import opened Sequences
  import opened Ordering

  /** How many nights after tonight are searched. */
  const SEARCH: nat := 35

  // ---- The sky ----

  datatype Moon = NoMoon | BelowHorizon | MinSeparation(degrees: real)
  datatype Window = Window(start: int, minutes: nat)
  datatype Outcome<+T> = Done(value: T) | Failed

  datatype Target = Target(id: nat, place: Option<(real, real)>)

  /** The planning computations grading rests on: the nights of the calendar,
      a night's darkness and Moon age, each band's separation and criterion at
      an age, and a target's best window under a Moon criterion. */
  datatype Sky = Sky(
    supported: int -> bool,
    darkSeconds: int -> nat,
    moonAge: int -> real,
    separation: (nat, real) -> real,
    criterion: (nat, real) -> Moon,
    best: (int, Moon, Target) -> Outcome<Option<Window>>)

  /** A window lies in the night's darkness. */
  ghost predicate NeedsDark(sky: Sky) {
    forall n, moon, t :: sky.darkSeconds(n) == 0 ==> sky.best(n, moon, t) == Done(None)
  }

  // ---- Goals ----

  datatype Goal = Goal(id: int, project: string, designation: string, channel: Option<string>, target: Target, bands: seq<nat>)

  datatype Ungraded = NoBand | NoPosition

  function UngradedOf(goal: Goal): Option<Ungraded> {
    if goal.bands == [] then Some(NoBand)
    else if goal.target.place.None? then Some(NoPosition)
    else None
  }

  /** One id names one target. */
  ghost predicate OneTargetPerId(goals: seq<Goal>) {
    forall g, h :: g in goals && h in goals && g.target.id == h.target.id ==> g.target == h.target
  }

  predicate Stricter(sky: Sky, age: real, a: nat, b: nat) {
    sky.separation(a, age) > sky.separation(b, age) || (sky.separation(a, age) == sky.separation(b, age) && a <= b)
  }

  /** The band that needs the most separation, the earlier on a tie. */
  function StrictestBand(sky: Sky, bands: seq<nat>, age: real): (b: Option<nat>)
    ensures b.None? <==> bands == []
    ensures b.Some? ==> b.value in bands && forall k :: 0 <= k < |bands| ==> Stricter(sky, age, b.value, bands[k])
  {
    if bands == [] then None
    else
      var last := bands[|bands| - 1];
      var before := StrictestBand(sky, bands[..|bands| - 1], age);
      if before.Some? && Stricter(sky, age, before.value, last) then before else Some(last)
  }

  // ---- Grades ----

  datatype Grade = Good | Marginal | Poor

  /** Poor without a window; marginal only where the curve leaves less than 3/4
      of the minutes there would be without the Moon. */
  function BandGrade(curved: Option<nat>, free: Option<nat>): Grade {
    if curved.None? then Poor
    else if free.Some? && 4 * curved.value < 3 * free.value then Marginal
    else Good
  }

  datatype NightGrade = NightGrade(
    goal: Goal, band: Option<nat>, grade: Option<Grade>, ungraded: Option<Ungraded>, window: Option<Window>, moonRuledOut: bool)

  function Minutes(w: Option<Window>): Option<nat> {
    if w.None? then None else Some(w.value.minutes)
  }

  function Curved(sky: Sky, goal: Goal, night: int): Outcome<Option<Window>>
    requires UngradedOf(goal).None?
  {
    var age := sky.moonAge(night);
    sky.best(night, sky.criterion(StrictestBand(sky, goal.bands, age).value, age), goal.target)
  }

  /** One goal's grade, every window computed afresh. */
  function GradeOne(sky: Sky, goal: Goal, night: int): Outcome<NightGrade> {
    if UngradedOf(goal).Some? then Done(NightGrade(goal, None, None, UngradedOf(goal), None, false))
    else
      var curved := Curved(sky, goal, night);
      var free := sky.best(night, NoMoon, goal.target);
      if curved.Failed? || free.Failed? then Failed
      else Done(NightGrade(goal, StrictestBand(sky, goal.bands, sky.moonAge(night)),
        Some(BandGrade(Minutes(curved.value), Minutes(free.value))), None, curved.value,
        curved.value.None? && free.value.Some?))
  }

  function GradeAll(sky: Sky, goals: seq<Goal>, night: int): Outcome<seq<NightGrade>> {
    if goals == [] then Done([])
    else
      var before := GradeAll(sky, goals[..|goals| - 1], night);
      var last := GradeOne(sky, goals[|goals| - 1], night);
      if before.Failed? || last.Failed? then Failed else Done(before.value + [last.value])
  }

  // ---- Best first ----

  function Rank(g: NightGrade): int {
    match g.grade
    case Some(Good) => 0
    case Some(Marginal) => 1
    case Some(Poor) => 2
    case None => 3
  }

  function FewerMinutes(g: NightGrade): int {
    if g.window.None? then 0 else 0 - g.window.value.minutes
  }

  function Project(g: NightGrade): string { g.goal.project }

  function Designation(g: NightGrade): string { g.goal.designation }

  function Channel(g: NightGrade): Option<string> { g.goal.channel }

  function GoalId(g: NightGrade): int { g.goal.id }

  /** The better grade first, then the longer window, then the names. */
  function GradeOrder(): Comparison<NightGrade> {
    Lexicographic(By(Rank, IntOrder), Lexicographic(By(FewerMinutes, IntOrder), NameOrder()))
  }

  function NameOrder(): Comparison<NightGrade> {
    Lexicographic(By(Project, TextOrder), Lexicographic(By(Designation, TextOrder),
      Lexicographic(By(Channel, UnknownFirst(TextOrder)), By(GoalId, IntOrder))))
  }

  lemma NameOrderIsPreorder()
    ensures Preorder(NameOrder())
  {
    TextOrderIsPreorder();
    UnknownFirstIsPreorder(TextOrder);
    ByIsPreorder(Project, TextOrder);
    ByIsPreorder(Designation, TextOrder);
    ByIsPreorder(Channel, UnknownFirst(TextOrder));
    ByIsPreorder(GoalId, IntOrder);
    var last := Lexicographic(By(Channel, UnknownFirst(TextOrder)), By(GoalId, IntOrder));
    LexicographicIsPreorder(By(Channel, UnknownFirst(TextOrder)), By(GoalId, IntOrder));
    LexicographicIsPreorder(By(Designation, TextOrder), last);
    LexicographicIsPreorder(By(Project, TextOrder), Lexicographic(By(Designation, TextOrder), last));
  }

  lemma GradeOrderIsPreorder()
    ensures Preorder(GradeOrder())
  {
    NameOrderIsPreorder();
    ByIsPreorder(Rank, IntOrder);
    ByIsPreorder(FewerMinutes, IntOrder);
    LexicographicIsPreorder(By(FewerMinutes, IntOrder), NameOrder());
    LexicographicIsPreorder(By(Rank, IntOrder), Lexicographic(By(FewerMinutes, IntOrder), NameOrder()));
  }

  /** The night's grades with no memo: each goal's own, best first. */
  function GradedNight(sky: Sky, goals: seq<Goal>, night: int): Outcome<seq<NightGrade>> {
    var all := GradeAll(sky, goals, night);
    if all.Failed? then Failed else Done(SortBy(GradeOrder(), all.value))
  }

  // ---- Grading with a memo ----

  type Memo = map<(nat, Moon), Option<Window>>

  /** What the memo holds for a goal's target is what its window is. */
  ghost predicate Remembers(sky: Sky, night: int, goals: seq<Goal>, memo: Memo) {
    forall g, moon :: g in goals && (g.target.id, moon) in memo ==>
      sky.best(night, moon, g.target) == Done(memo[(g.target.id, moon)])
  }

  method FindWindow(sky: Sky, night: int, ghost goals: seq<Goal>, goal: Goal, moon: Moon, memo: Memo)
    returns (w: Outcome<Option<Window>>, after: Memo)
    requires goal in goals && OneTargetPerId(goals) && Remembers(sky, night, goals, memo)
    ensures w == sky.best(night, moon, goal.target) && Remembers(sky, night, goals, after)
  {
    after := memo;
    var key := (goal.target.id, moon);
    if key in memo {
      return Done(memo[key]), after;
    }
    w := sky.best(night, moon, goal.target);
    if w.Done? {
      after := memo[key := w.value];
    }
  }

  method GradeGoal(sky: Sky, night: int, ghost goals: seq<Goal>, goal: Goal, memo: Memo)
    returns (g: Outcome<NightGrade>, after: Memo)
    requires goal in goals && OneTargetPerId(goals) && Remembers(sky, night, goals, memo)
    ensures g == GradeOne(sky, goal, night) && Remembers(sky, night, goals, after)
  {
    after := memo;
    var age := sky.moonAge(night);
    var band := StrictestBand(sky, goal.bands, age);
    if UngradedOf(goal).Some? {
      return Done(NightGrade(goal, None, None, UngradedOf(goal), None, false)), after;
    }
    var curved, free;
    curved, after := FindWindow(sky, night, goals, goal, sky.criterion(band.value, age), after);
    if curved.Failed? {
      return Failed, after;
    }
    free, after := FindWindow(sky, night, goals, goal, NoMoon, after);
    if free.Failed? {
      return Failed, after;
    }
    g := Done(NightGrade(goal, band, Some(BandGrade(Minutes(curved.value), Minutes(free.value))), None, curved.value,
      curved.value.None? && free.value.Some?));
  }

  /** The memo changes no grade. */
  method GradeNight(sky: Sky, goals: seq<Goal>, night: int) returns (r: Outcome<seq<NightGrade>>)
    requires OneTargetPerId(goals)
    ensures r == GradedNight(sky, goals, night)
  {
    var memo: Memo := map[];
    var graded: seq<NightGrade> := [];
    for i := 0 to |goals|
      invariant Remembers(sky, night, goals, memo)
      invariant GradeAll(sky, goals[..i], night) == Done(graded)
    {
      assert goals[..i + 1][..i] == goals[..i];
      var g;
      g, memo := GradeGoal(sky, night, goals, goals[i], memo);
      if g.Failed? {
        FailsOnceFailed(sky, goals, i + 1, night);
        return Failed;
      }
      graded := graded + [g.value];
    }
    assert goals[..|goals|] == goals;
    r := Done(SortBy(GradeOrder(), graded));
  }

  lemma {:induction false} FailsOnceFailed(sky: Sky, goals: seq<Goal>, i: nat, night: int)
    requires i <= |goals| && GradeAll(sky, goals[..i], night).Failed?
    ensures GradeAll(sky, goals, night).Failed?
  {
    if i < |goals| {
      assert goals[..|goals| - 1][..i] == goals[..i];
      FailsOnceFailed(sky, goals[..|goals| - 1], i, night);
    } else {
      assert goals[..i] == goals;
    }
  }

  // ---- The next good night ----

  datatype NextNight = NoGradableGoal | Night(night: int) | NoneWithin(nights: nat)

  function IsGradable(goal: Goal): Option<Goal> {
    if UngradedOf(goal).None? then Some(goal) else None
  }

  /** The goals that can be graded on some night. */
  function Gradable(goals: seq<Goal>): seq<Goal> {
    Collected(IsGradable, goals)
  }

  lemma {:induction false} GradableIsWhich(goals: seq<Goal>)
    ensures forall g :: g in Gradable(goals) <==> g in goals && UngradedOf(g).None?
  {
    if goals != [] {
      GradableIsWhich(goals[..|goals| - 1]);
      assert goals == goals[..|goals| - 1] + [goals[|goals| - 1]];
    }
  }

  ghost predicate AllGradable(goals: seq<Goal>) {
    forall g :: g in goals ==> UngradedOf(g).None?
  }

  /** Some goal's curve leaves it a window that night. */
  ghost predicate Suited(sky: Sky, goals: seq<Goal>, night: int) {
    exists g :: g in goals && UngradedOf(g).None? && HasWindow(sky, g, night)
  }

  predicate HasWindow(sky: Sky, goal: Goal, night: int)
    requires UngradedOf(goal).None?
  {
    var w := Curved(sky, goal, night);
    w.Done? && w.value.Some?
  }

  predicate HasNone(sky: Sky, goal: Goal, night: int)
    requires UngradedOf(goal).None?
  {
    Curved(sky, goal, night) == Done(None)
  }

  ghost predicate NoneSuits(sky: Sky, goals: seq<Goal>, night: int)
    requires AllGradable(goals)
  {
    forall g :: g in goals ==> HasNone(sky, g, night)
  }

  /** Something a night asks of the planning computations fails. */
  ghost predicate Breaks(sky: Sky, goals: seq<Goal>, night: int)
    requires AllGradable(goals)
  {
    !sky.supported(night) || exists g :: g in goals && Curved(sky, g, night).Failed?
  }

  /** One night: whether it suits a goal, trying each target and criterion
      once. */
  method TryNight(sky: Sky, goals: seq<Goal>, night: int) returns (r: Outcome<bool>)
    requires AllGradable(goals) && OneTargetPerId(goals)
    ensures r == Done(true) ==> Suited(sky, goals, night)
    ensures r == Done(false) ==> NoneSuits(sky, goals, night)
    ensures r.Failed? ==> Breaks(sky, goals, night)
  {
    var age := sky.moonAge(night);
    var tried: seq<(nat, Moon)> := [];
    for i := 0 to |goals|
      invariant forall k :: 0 <= k < i ==> HasNone(sky, goals[k], night)
      invariant forall key :: key in tried ==> TriedInVain(sky, goals, night, key)
    {
      var goal := goals[i];
      assert goal in goals;
      var moon := sky.criterion(StrictestBand(sky, goal.bands, age).value, age);
      var key := (goal.target.id, moon);
      if key in tried {
        assert TriedInVain(sky, goals, night, key);
        continue;
      }
      tried := tried + [key];
      var found := sky.best(night, moon, goal.target);
      assert found == Curved(sky, goal, night);
      if found.Failed? {
        return Failed;
      }
      if found.value.Some? {
        assert HasWindow(sky, goal, night);
        return Done(true);
      }
      assert TriedInVain(sky, goals, night, key);
    }
    r := Done(false);
  }

  /** The target of this id had no window under this criterion. */
  ghost predicate TriedInVain(sky: Sky, goals: seq<Goal>, night: int, key: (nat, Moon)) {
    forall g :: g in goals && g.target.id == key.0 ==> sky.best(night, key.1, g.target) == Done(None)
  }

  /** What a search after `night` may say. */
  ghost predicate Answers(sky: Sky, goals: seq<Goal>, night: int, r: Outcome<NextNight>)
    requires AllGradable(goals)
  {
    match r
    case Failed => exists n :: night < n <= night + SEARCH && Breaks(sky, goals, n)
    case Done(NoGradableGoal) => goals == []
    case Done(Night(found)) =>
      && night < found <= night + SEARCH && Suited(sky, goals, found)
      && forall n :: night < n < found ==> NoneSuits(sky, goals, n)
    case Done(NoneWithin(nights)) =>
      nights == SEARCH && forall n :: night < n <= night + SEARCH ==> NoneSuits(sky, goals, n)
  }

  /** The first of the next nights that suits a goal, dark-free nights skipped. */
  method NextGoodNight(sky: Sky, goals: seq<Goal>, night: int) returns (r: Outcome<NextNight>)
    requires OneTargetPerId(goals) && NeedsDark(sky)
    ensures AllGradable(Gradable(goals)) && Answers(sky, Gradable(goals), night, r)
    ensures r == Done(NoGradableGoal) <==> forall g :: g in goals ==> g.bands == [] || g.target.place.None?
  {
    var gradable := Gradable(goals);
    GradableIsWhich(goals);
    assert gradable != [] ==> gradable[0] in gradable;
    if gradable == [] {
      return Done(NoGradableGoal);
    }
    var candidate := night;
    for k := 0 to SEARCH
      invariant candidate == night + k
      invariant forall n :: night < n <= candidate ==> NoneSuits(sky, gradable, n)
    {
      candidate := candidate + 1;
      if !sky.supported(candidate) {
        assert Breaks(sky, gradable, candidate);
        return Failed;
      }
      if sky.darkSeconds(candidate) == 0 {
        assert NoneSuits(sky, gradable, candidate);
        continue;
      }
      var suits := TryNight(sky, gradable, candidate);
      if suits.Failed? {
        return Failed;
      }
      if suits.value {
        return Done(Night(candidate));
      }
    }
    r := Done(NoneWithin(SEARCH));
  }

  // ---- The search and the grades agree ----

  predicate Suits(g: NightGrade) {
    g.grade == Some(Good) || g.grade == Some(Marginal)
  }

  lemma {:induction false} GradesOfGoals(sky: Sky, goals: seq<Goal>, night: int)
    requires GradeAll(sky, goals, night).Done?
    ensures var all := GradeAll(sky, goals, night).value;
      |all| == |goals| && forall i :: 0 <= i < |goals| ==> GradeOne(sky, goals[i], night) == Done(all[i])
  {
    if goals != [] {
      GradesOfGoals(sky, goals[..|goals| - 1], night);
    }
  }

  /** A goal's grade suits exactly when its curve leaves it a window. */
  lemma GradeSuits(sky: Sky, goal: Goal, night: int, g: NightGrade)
    requires GradeOne(sky, goal, night) == Done(g)
    ensures Suits(g) <==> UngradedOf(goal).None? && HasWindow(sky, goal, night)
  {
  }

  /** The band asks for the most separation of all, and for no more than an
      earlier one that asks for as much. */
  predicate IsStrictest(sky: Sky, bands: seq<nat>, age: real, band: nat) {
    band in bands && forall b :: b in bands ==>
      sky.separation(b, age) < sky.separation(band, age) || (sky.separation(b, age) == sky.separation(band, age) && band <= b)
  }

  /** Over a fourth of the `free` minutes are lost to the Moon. */
  predicate TakesAQuarter(left: nat, free: nat) {
    free > left && (free - left) as real > free as real / 4.0
  }

  /** What a goal's grade says: its strictest band's window decides, poor
      without one, marginal where over a fourth of what there would be without
      the Moon is lost, good otherwise. */
  lemma GradeSays(sky: Sky, goal: Goal, night: int) returns (band: nat)
    requires goal.bands != [] && goal.target.place.Some?
    ensures IsStrictest(sky, goal.bands, sky.moonAge(night), band)
    ensures forall b :: IsStrictest(sky, goal.bands, sky.moonAge(night), b) ==> b == band
    ensures var curved, free :=
        sky.best(night, sky.criterion(band, sky.moonAge(night)), goal.target), sky.best(night, NoMoon, goal.target);
      if curved.Failed? || free.Failed? then GradeOne(sky, goal, night).Failed?
      else GradeOne(sky, goal, night) == Done(NightGrade(goal, Some(band),
        Some(if curved.value.None? then Poor
             else if free.value.Some? && TakesAQuarter(curved.value.value.minutes, free.value.value.minutes) then Marginal
             else Good),
        None, curved.value, curved.value.None? && free.value.Some?))
  {
    var age := sky.moonAge(night);
    band := StrictestBand(sky, goal.bands, age).value;
    forall b | b in goal.bands ensures Stricter(sky, age, band, b) {
      var k :| 0 <= k < |goal.bands| && goal.bands[k] == b;
    }
  }

  /** A goal without a band or a position has no grade, and says which it
      lacks, the band first. */
  lemma UngradedSays(sky: Sky, goal: Goal, night: int)
    requires goal.bands == [] || goal.target.place.None?
    ensures GradeOne(sky, goal, night) ==
      Done(NightGrade(goal, None, None, Some(if goal.bands == [] then NoBand else NoPosition), None, false))
  {
  }

  lemma SuitedIsAmong(sky: Sky, goals: seq<Goal>, night: int)
    requires GradeAll(sky, goals, night).Done?
    ensures Suited(sky, Gradable(goals), night) <==> exists g :: g in GradeAll(sky, goals, night).value && Suits(g)
  {
    GradesOfGoals(sky, goals, night);
    GradableIsWhich(goals);
    var all := GradeAll(sky, goals, night).value;
    forall i | 0 <= i < |goals| ensures Suits(all[i]) <==> UngradedOf(goals[i]).None? && HasWindow(sky, goals[i], night) {
      GradeSuits(sky, goals[i], night, all[i]);
    }
    if goal :| goal in Gradable(goals) && UngradedOf(goal).None? && HasWindow(sky, goal, night) {
      var i :| 0 <= i < |goals| && goals[i] == goal;
      assert all[i] in all;
    }
    if g :| g in all && Suits(g) {
      var i :| 0 <= i < |all| && all[i] == g;
      assert goals[i] in Gradable(goals);
    }
  }

  /** A night grades some goal good or marginal exactly when the search would
      stop there. */
  lemma SuitedIsGraded(sky: Sky, goals: seq<Goal>, night: int)
    requires GradedNight(sky, goals, night).Done?
    ensures Suited(sky, Gradable(goals), night) <==> exists g :: g in GradedNight(sky, goals, night).value && Suits(g)
  {
    SuitedIsAmong(sky, goals, night);
    var all := GradeAll(sky, goals, night).value;
    SameMembers(SortBy(GradeOrder(), all), all);
  }

  /** Good before marginal before poor before none. */
  predicate Better(a: Option<Grade>, b: Option<Grade>) {
    || (a == Some(Good) && b != Some(Good))
    || (a == Some(Marginal) && (b == Some(Poor) || b == None))
    || (a == Some(Poor) && b == None)
  }

  function MinutesOf(g: NightGrade): nat {
    if g.window.Some? then g.window.value.minutes else 0
  }

  /** A better grade, then a longer window, then the names in the order a list
      shows them, no channel before any. */
  predicate ComesFirst(a: NightGrade, b: NightGrade) {
    || Better(a.grade, b.grade)
    || (a.grade == b.grade && MinutesOf(a) > MinutesOf(b))
    || (a.grade == b.grade && MinutesOf(a) == MinutesOf(b) && NamedFirst(a.goal, b.goal))
  }

  predicate NamedFirst(a: Goal, b: Goal) {
    if a.project != b.project then LexLess(a.project, b.project)
    else if a.designation != b.designation then LexLess(a.designation, b.designation)
    else if a.channel != b.channel then
      b.channel.Some? && (a.channel.None? || LexLess(a.channel.value, b.channel.value))
    else a.id < b.id
  }

  lemma NamesSay(a: NightGrade, b: NightGrade)
    ensures NameOrder()(a, b).Less? <==> NamedFirst(a.goal, b.goal)
  {
    var byChannel := Lexicographic(By(Channel, UnknownFirst(TextOrder)), By(GoalId, IntOrder));
    var byDesignation := Lexicographic(By(Designation, TextOrder), byChannel);
    assert NameOrder() == Lexicographic(By(Project, TextOrder), byDesignation);
    assert By(Project, TextOrder)(a, b) == TextOrder(a.goal.project, b.goal.project);
    assert NameOrder()(a, b) == Then(TextOrder(a.goal.project, b.goal.project), byDesignation(a, b));
    assert byDesignation(a, b) == Then(TextOrder(a.goal.designation, b.goal.designation), byChannel(a, b));
    var c, d := a.goal.channel, b.goal.channel;
    assert UnknownFirst(TextOrder)(c, d) ==
      if c.Some? && d.Some? then TextOrder(c.value, d.value) else if c.Some? then Greater else if d.Some? then Less else Equal;
    assert byChannel(a, b) == Then(UnknownFirst(TextOrder)(a.goal.channel, b.goal.channel), IntOrder(a.goal.id, b.goal.id));
  }

  lemma OrderSays(a: NightGrade, b: NightGrade)
    ensures GradeOrder()(a, b).Less? <==> ComesFirst(a, b)
  {
    NamesSay(a, b);
    var byMinutes := Lexicographic(By(FewerMinutes, IntOrder), NameOrder());
    assert GradeOrder()(a, b) == Then(IntOrder(Rank(a), Rank(b)), byMinutes(a, b));
    assert byMinutes(a, b) == Then(IntOrder(FewerMinutes(a), FewerMinutes(b)), NameOrder()(a, b));
  }

  /** The grades are every goal's own, best first. */
  lemma BestGradesFirst(sky: Sky, goals: seq<Goal>, night: int)
    requires GradedNight(sky, goals, night).Done?
    ensures var graded := GradedNight(sky, goals, night).value;
      && Sorted(GradeOrder(), graded)
      && (forall i, j :: 0 <= i < j < |graded| ==> !ComesFirst(graded[j], graded[i]))
      && |graded| == |goals|
      && forall i :: 0 <= i < |goals| ==> exists g :: g in graded && GradeOne(sky, goals[i], night) == Done(g)
  {
    GradeOrderIsPreorder();
    GradesOfGoals(sky, goals, night);
    var all := GradeAll(sky, goals, night).value;
    var graded := SortBy(GradeOrder(), all);
    SortSorts(GradeOrder(), all);
    SameMembers(graded, all);
    forall i | 0 <= i < |goals| ensures exists g :: g in graded && GradeOne(sky, goals[i], night) == Done(g) {
      assert all[i] in all;
    }
    forall i, j | 0 <= i < j < |graded| ensures !ComesFirst(graded[j], graded[i]) {
      NoneAheadOfFirst(graded[i], graded[j]);
    }
  }

  lemma NoneAheadOfFirst(a: NightGrade, b: NightGrade)
    requires Preorder(GradeOrder()) && !GradeOrder()(a, b).Greater?
    ensures !ComesFirst(b, a)
  {
    OrderSays(b, a);
    assert GradeOrder()(b, a) == Flip(GradeOrder()(a, b));
  }

  /** The last night the search looked at. */
  function LastLooked(night: int, r: Outcome<NextNight>): int {
    if r.Done? && r.value.Night? then r.value.night else night + SEARCH
  }

  /** The night found is the first whose uncached grades suit a goal, and none
      found means no night's do, where every night looked at can be graded. */
  lemma SearchMatchesGrades(sky: Sky, goals: seq<Goal>, night: int, r: Outcome<NextNight>)
    requires AllGradable(Gradable(goals)) && Answers(sky, Gradable(goals), night, r)
    requires forall n :: night < n <= LastLooked(night, r) ==> sky.supported(n) && GradedNight(sky, goals, n).Done?
    ensures r.Done?
    ensures r.value.Night? ==>
      && night < r.value.night <= night + 35 && NightSuits(sky, goals, r.value.night)
      && forall n :: night < n < r.value.night ==> !NightSuits(sky, goals, n)
    ensures r.value.NoneWithin? ==>
      r.value.nights == 35 && forall n :: night < n <= night + 35 ==> !NightSuits(sky, goals, n)
    ensures r.value.NoGradableGoal? ==> forall g :: g in goals ==> g.bands == [] || g.target.place.None?
  {
    var gradable := Gradable(goals);
    GradableIsWhich(goals);
    forall n | night < n <= LastLooked(night, r)
      ensures !Breaks(sky, gradable, n)
      ensures NightSuits(sky, goals, n) <==> Suited(sky, gradable, n)
      ensures NoneSuits(sky, gradable, n) ==> !Suited(sky, gradable, n)
    {
      GradedNightIsClear(sky, goals, n);
    }
  }

  /** Where a night can be graded nothing breaks, and its grades say whether
      it suits. */
  lemma GradedNightIsClear(sky: Sky, goals: seq<Goal>, n: int)
    requires AllGradable(Gradable(goals)) && sky.supported(n) && GradedNight(sky, goals, n).Done?
    ensures !Breaks(sky, Gradable(goals), n)
    ensures NightSuits(sky, goals, n) <==> Suited(sky, Gradable(goals), n)
    ensures NoneSuits(sky, Gradable(goals), n) ==> !Suited(sky, Gradable(goals), n)
  {
    GradableIsWhich(goals);
    SuitedIsGraded(sky, goals, n);
    GradesOfGoals(sky, goals, n);
    forall g | g in Gradable(goals) ensures Curved(sky, g, n).Done? {
      var i :| 0 <= i < |goals| && goals[i] == g;
      assert GradeOne(sky, goals[i], n).Done?;
    }
    forall g | g in Gradable(goals) && HasNone(sky, g, n) ensures !HasWindow(sky, g, n) {
    }
  }

  ghost predicate NightSuits(sky: Sky, goals: seq<Goal>, night: int)
  {
    var graded := GradedNight(sky, goals, night);
    graded.Done? && exists g :: g in graded.value && Suits(g)
  }
}
