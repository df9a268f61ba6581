/** The civil date a day count names, as the events pruner computes it, and
    the Gregorian calendar it must agree with. */
module CivilDate {
  // ---- The Gregorian calendar ----

  datatype Date = Date(year: nat, month: nat, day: nat)

  predicate Leap(year: nat) {
    year % 4 == 0 && (year % 100 != 0 || year % 400 == 0)
  }

  function DaysIn(year: nat, month: nat): nat {
    if month == 2 then if Leap(year) then 29 else 28
    else if month == 4 || month == 6 || month == 9 || month == 11 then 30
    else 31
  }

  function NextDay(d: Date): Date {
    if d.day < DaysIn(d.year, d.month) then Date(d.year, d.month, d.day + 1)
    else if d.month < 12 then Date(d.year, d.month + 1, 1)
    else Date(d.year + 1, 1, 1)
  }

  const EPOCH := Date(1970, 1, 1)

  function DaysAfterEpoch(n: nat): Date {
    if n == 0 then EPOCH else NextDay(DaysAfterEpoch(n - 1))
  }

  // ---- The closed form ----

  /** The year of the 400-year era, counted from March, day `doe` falls in. */
  function YearOfEra(doe: nat): int {
    (doe - doe / 1460 + doe / 36524 - doe / 146096) / 365
  }

  function YearStart(yoe: int): int {
    365 * yoe + yoe / 4 - yoe / 100
  }

  /** The month from March, day `doy` of such a year falls in. */
  function MonthFromMarch(doy: int): int {
    (5 * doy + 2) / 153
  }

  function MonthStart(mp: int): int {
    (153 * mp + 2) / 5
  }

  const U32 := 0x1_0000_0000

  /** The year, month and day of day `doy` of year `yoe` of an era. */
  function Civil(era: int, yoe: int, doy: int): (int, int, int) {
    var y := yoe + era * 400;
    var mp := MonthFromMarch(doy);
    var d := doy - MonthStart(mp) + 1;
    var m := if mp < 10 then mp + 3 else mp - 9;
    (if m <= 2 then y + 1 else y, m, d)
  }

  /** `days_to_ymd`, its casts included. */
  function DaysToYmd(days: nat): Date
    requires days + 719468 < 0x8000_0000_0000_0000
  {
    var z := days + 719468;
    var era := z / 146097;
    var doe := z % 146097;
    var yoe := YearOfEra(doe);
    var doy := doe - YearStart(yoe);
    var (y, m, d) := Civil(era, yoe, doy);
    Date(y % U32, m % U32, d % U32)
  }

  function YearLength(yoe: int): (n: int)
    ensures 365 <= n <= 366
  {
    if (yoe + 1) % 4 == 0 && ((yoe + 1) % 100 != 0 || yoe + 1 == 400) then 366 else 365
  }

  /** A year of an era by its century, four-year span and place in it. */
  lemma YearOfParts(c: int, k: int, j: int, t: int, doe: nat)
    requires 0 <= c <= 3 && 0 <= k <= 24 && 0 <= j <= 3 && 0 <= t <= 365
    requires t == 365 ==> j == 3 && (k != 24 || c == 3)
    requires doe == 36524 * c + 1461 * k + 365 * j + t
    ensures YearOfEra(doe) == 100 * c + 4 * k + j
  {
    var e := if 24 * c + k + 365 * j + t >= 1460 then 1 else 0;
    assert doe / 1460 == 25 * c + k + e;
    assert doe / 36524 == if doe == 146096 then 4 else c;
    assert doe / 146096 == if doe == 146096 then 1 else 0;
  }

  lemma YearStartOfParts(c: int, k: int, j: int)
    requires 0 <= c <= 3 && 0 <= k <= 24 && 0 <= j <= 3
    ensures YearStart(100 * c + 4 * k + j) == 36524 * c + 1461 * k + 365 * j
    ensures YearLength(100 * c + 4 * k + j) == if j == 3 && (k != 24 || c == 3) then 366 else 365
  {
    var y := 100 * c + 4 * k + j;
    assert y / 4 == 25 * c + k && y / 100 == c;
    assert (y + 1) % 4 == (j + 1) % 4;
    assert (y + 1) % 100 == (4 * k + j + 1) % 100;
  }

  /** The closed form finds the year a day lies in. */
  lemma YearOfEraIsRight(doe: nat)
    requires doe < 146097
    ensures 0 <= YearOfEra(doe) <= 399
    ensures 0 <= doe - YearStart(YearOfEra(doe)) < YearLength(YearOfEra(doe))
  {
    var c := if doe == 146096 then 3 else doe / 36524;
    var r := doe - 36524 * c;
    var k := r / 1461;
    var j := if (r % 1461) / 365 == 4 then 3 else (r % 1461) / 365;
    var t := r % 1461 - 365 * j;
    YearOfParts(c, k, j, t, doe);
    YearStartOfParts(c, k, j);
  }

  lemma MonthIsRight(doy: int)
    requires 0 <= doy <= 365
    ensures 0 <= MonthFromMarch(doy) <= 11
    ensures MonthStart(MonthFromMarch(doy)) <= doy
    ensures MonthFromMarch(doy) < 11 ==> doy < MonthStart(MonthFromMarch(doy) + 1)
  {
  }

  // ---- One day further ----

  lemma YearStartNext(yoe: int)
    requires 0 <= yoe <= 398
    ensures YearStart(yoe + 1) == YearStart(yoe) + YearLength(yoe)
  {
  }

  lemma {:induction false} YearStartGrows(a: int, b: int)
    requires 0 <= a <= b <= 399
    ensures YearStart(a) <= YearStart(b)
    decreases b
  {
    if a < b {
      YearStartGrows(a, b - 1);
      YearStartNext(b - 1);
    }
  }

  /** No other year holds the day. */
  lemma YearIsUnique(yoe: int, doe: nat)
    requires doe < 146097 && 0 <= yoe <= 399 && 0 <= doe - YearStart(yoe) < YearLength(yoe)
    ensures YearOfEra(doe) == yoe
  {
    YearOfEraIsRight(doe);
    var found := YearOfEra(doe);
    if found < yoe {
      YearStartNext(found);
      YearStartGrows(found + 1, yoe);
    } else if found > yoe {
      YearStartNext(yoe);
      YearStartGrows(yoe + 1, found);
    }
  }

  /** The date of day `doy` of year `yoe` of an era. */
  function DateOf(era: nat, yoe: nat, doy: nat): Date
    requires yoe <= 399 && doy < YearLength(yoe)
  {
    MonthIsRight(doy);
    var c := Civil(era, yoe, doy);
    Date(c.0, c.1, c.2)
  }

  lemma LeapIsLongYear(era: nat, yoe: nat)
    requires yoe <= 399
    ensures Leap(yoe + era * 400 + 1) <==> YearLength(yoe) == 366
  {
    var year := yoe + era * 400 + 1;
    assert year % 4 == (yoe + 1) % 4;
    assert year % 100 == (yoe + 1) % 100 by {
      assert year == (yoe + 1) + 100 * (4 * era);
      ModHundreds(yoe + 1, 4 * era);
    }
    assert year % 400 == (yoe + 1) % 400 by { ModFourHundreds(yoe + 1, era); }
  }

  lemma ModHundreds(a: nat, k: nat)
    ensures (a + 100 * k) % 100 == a % 100
  {
  }

  lemma ModFourHundreds(a: nat, k: nat)
    ensures (a + 400 * k) % 400 == a % 400
  {
  }

  /** Within a year the next day is in the same month, or first of the next. */
  lemma MonthStep(doy: nat)
    requires doy <= 364
    ensures var mp, next := MonthFromMarch(doy), MonthFromMarch(doy + 1);
      && 0 <= mp <= 11 && MonthStart(mp) <= doy
      && (next == mp || (next == mp + 1 && mp < 11 && doy + 1 == MonthStart(next)))
      && (mp < 11 && next == mp ==> doy + 1 < MonthStart(mp + 1))
  {
    MonthIsRight(doy);
    MonthIsRight(doy + 1);
  }

  lemma MonthLengths(mp: nat, year: nat)
    requires mp <= 10
    ensures MonthStart(mp + 1) - MonthStart(mp) == DaysIn(year, if mp < 10 then mp + 3 else mp - 9)
  {
  }

  lemma NextWithinYear(era: nat, yoe: nat, doy: nat)
    requires yoe <= 399 && doy + 1 < YearLength(yoe)
    ensures NextDay(DateOf(era, yoe, doy)) == DateOf(era, yoe, doy + 1)
  {
    MonthStep(doy);
    var mp := MonthFromMarch(doy);
    var date := DateOf(era, yoe, doy);
    if mp <= 10 {
      MonthLengths(mp, date.year);
    } else {
      LeapIsLongYear(era, yoe);
      assert MonthStart(11) == 337;
    }
  }

  lemma NextAcrossYear(era: nat, yoe: nat)
    requires yoe <= 399
    ensures NextDay(DateOf(era, yoe, YearLength(yoe) - 1))
         == if yoe == 399 then DateOf(era + 1, 0, 0) else DateOf(era, yoe + 1, 0)
  {
    LeapIsLongYear(era, yoe);
  }

  lemma EraEndsWithYear(yoe: nat, doy: nat)
    requires yoe <= 399 && doy < YearLength(yoe)
    ensures 0 <= YearStart(yoe) + doy <= 146096
    ensures yoe == 399 && doy + 1 == YearLength(yoe) ==> YearStart(yoe) + doy == 146096
  {
    YearStartGrows(0, yoe);
    if yoe < 399 {
      YearStartNext(yoe);
      YearStartGrows(yoe + 1, 399);
    }
  }

  /** The day after a day of an era, and its day number. */
  lemma PartsNext(era: nat, yoe: nat, doy: nat) returns (era': nat, yoe': nat, doy': nat)
    requires yoe <= 399 && doy < YearLength(yoe)
    ensures yoe' <= 399 && doy' < YearLength(yoe')
    ensures NextDay(DateOf(era, yoe, doy)) == DateOf(era', yoe', doy')
    ensures 146097 * era' + YearStart(yoe') + doy' == 146097 * era + YearStart(yoe) + doy + 1
  {
    if doy + 1 < YearLength(yoe) {
      NextWithinYear(era, yoe, doy);
      era', yoe', doy' := era, yoe, doy + 1;
    } else {
      NextAcrossYear(era, yoe);
      era', yoe', doy' := if yoe == 399 then era + 1 else era, if yoe == 399 then 0 else yoe + 1, 0;
      NextYearStart(era, yoe);
    }
  }

  lemma NextYearStart(era: nat, yoe: nat)
    requires yoe <= 399
    ensures 146097 * era + YearStart(yoe) + YearLength(yoe)
         == if yoe == 399 then 146097 * (era + 1) + YearStart(0) else 146097 * era + YearStart(yoe + 1)
  {
    if yoe < 399 { YearStartNext(yoe); }
  }

  lemma EpochParts()
    ensures YearStart(369) == 134774 && YearLength(369) > 306 && DateOf(4, 369, 306) == EPOCH
  {
  }

  /** The date `n` days after the epoch, by its place in an era. */
  lemma {:induction false} PartsAfterEpoch(n: nat) returns (era: nat, yoe: nat, doy: nat)
    ensures yoe <= 399 && doy < YearLength(yoe)
    ensures DaysAfterEpoch(n) == DateOf(era, yoe, doy)
    ensures 146097 * era + YearStart(yoe) + doy == n + 719468
  {
    if n == 0 {
      era, yoe, doy := 4, 369, 306;
      EpochParts();
    } else {
      era, yoe, doy := PartsAfterEpoch(n - 1);
      era, yoe, doy := PartsNext(era, yoe, doy);
    }
  }

  lemma SplitDays(z: nat, era: nat, doe: nat)
    requires z == 146097 * era + doe && doe < 146097
    ensures z / 146097 == era && z % 146097 == doe
  {
  }

  lemma CastsAreExact(n: nat, era: nat, yoe: nat, doy: nat)
    requires yoe <= 399 && doy < YearLength(yoe) && 146097 * era + YearStart(yoe) + doy == n + 719468
    requires n + 719468 < 0x8000_0000_0000_0000 && DateOf(era, yoe, doy).year < U32
    ensures DaysToYmd(n) == DateOf(era, yoe, doy)
  {
    EraEndsWithYear(yoe, doy);
    SplitDays(n + 719468, era, YearStart(yoe) + doy);
    YearIsUnique(yoe, YearStart(yoe) + doy);
    var (y, m, d) := Civil(era, yoe, doy);
    CivilFits(era, yoe, doy);
    SmallMod(y);
    SmallMod(m);
    SmallMod(d);
    assert DaysToYmd(n) == Date(y % U32, m % U32, d % U32);
  }

  lemma SmallMod(x: nat)
    requires x < U32
    ensures x % U32 == x
  {
  }

  lemma CivilFits(era: nat, yoe: nat, doy: nat)
    requires yoe <= 399 && doy < YearLength(yoe)
    ensures Civil(era, yoe, doy).0 >= 0 && 1 <= Civil(era, yoe, doy).1 <= 12 && 1 <= Civil(era, yoe, doy).2 <= 31
  {
    MonthIsRight(doy);
  }

  /** The pruner's date of day `n` is the Gregorian next day taken `n` times
      from 1970-01-01, as long as the year fits the result. */
  lemma DaysToYmdIsGregorian(n: nat)
    requires n + 719468 < 0x8000_0000_0000_0000 && DaysAfterEpoch(n).year < U32
    ensures DaysToYmd(n) == DaysAfterEpoch(n)
  {
    var era, yoe, doy := PartsAfterEpoch(n);
    CastsAreExact(n, era, yoe, doy);
  }
}
