/** The pruner's cutoff stamp, and why comparing stamps as text prunes exactly
    the older rows. */
module EventCutoff {
  import opened Text
  import opened CivilDate

  const DAY: nat := 86_400

  // ---- Padded numbers ----

  /** `n` with zeros before it up to `width` characters. */
  function Pad(n: nat, width: nat): string {
    Zeros(if |Decimal(n)| < width then width - |Decimal(n)| else 0) + Decimal(n)
  }

  function Zeros(k: nat): (s: string)
    ensures |s| == k && forall i :: 0 <= i < k ==> s[i] == '0'
  {
    if k == 0 then [] else "0" + Zeros(k - 1)
  }

  function Power(width: nat): nat {
    if width == 0 then 1 else 10 * Power(width - 1)
  }

  predicate AllDigits(s: string) {
    forall k :: 0 <= k < |s| ==> IsDigit(s[k])
  }

  lemma {:induction false} ZerosCountForNothing(k: nat, s: string)
    requires AllDigits(s)
    ensures AllDigits(Zeros(k) + s) && Value(Zeros(k) + s) == Value(s)
  {
    if s == [] {
      if k > 0 {
        ZerosCountForNothing(k - 1, []);
        ZerosAtEnd(k);
        assert Zeros(k) + [] == Zeros(k) && Zeros(k - 1) + [] == Zeros(k - 1);
        assert Zeros(k)[..k - 1] == Zeros(k - 1);
      }
    } else {
      var front := s[..|s| - 1];
      ZerosCountForNothing(k, front);
      assert (Zeros(k) + s)[..|Zeros(k) + s| - 1] == Zeros(k) + front;
    }
  }

  lemma ZerosAtEnd(k: nat)
    requires k > 0
    ensures Zeros(k) == Zeros(k - 1) + "0"
  {
  }

  lemma {:induction false} DecimalFits(n: nat, width: nat)
    requires width > 0 && n < Power(width)
    ensures |Decimal(n)| <= width
  {
    if n >= 10 {
      assert width > 1;
      DecimalFits(n / 10, width - 1);
    }
  }

  lemma PaddedIs(s: string, k: nat)
    requires AllDigits(s)
    ensures |Zeros(k) + s| == k + |s| && AllDigits(Zeros(k) + s) && Value(Zeros(k) + s) == Value(s)
  {
    ZerosCountForNothing(k, s);
  }

  lemma PadIs(n: nat, width: nat)
    requires width > 0 && n < Power(width)
    ensures |Pad(n, width)| == width && AllDigits(Pad(n, width)) && Value(Pad(n, width)) == n
  {
    DecimalFits(n, width);
    DecimalRoundTrip(n);
    PaddedIs(Decimal(n), width - |Decimal(n)|);
  }

  lemma {:induction false} DigitsOrder(a: string, b: string)
    requires |a| == |b| && AllDigits(a) && AllDigits(b)
    ensures LexLess(a, b) <==> Value(a) < Value(b)
    ensures a == b <==> Value(a) == Value(b)
  {
    if a != [] {
      var n := |a| - 1;
      DigitsOrder(a[..n], b[..n]);
      LexConcat(a[..n], [a[n]], b[..n], [b[n]]);
      assert a == a[..n] + [a[n]] && b == b[..n] + [b[n]];
    }
  }

  /** One field decides, or is equal and leaves it to the rest. */
  lemma FieldDecides(x: nat, y: nat, width: nat, r: string, t: string)
    requires width > 0 && x < Power(width) && y < Power(width)
    ensures LexLess(Pad(x, width) + r, Pad(y, width) + t) <==> x < y || (x == y && LexLess(r, t))
  {
    PadIs(x, width);
    PadIs(y, width);
    DigitsOrder(Pad(x, width), Pad(y, width));
    LexConcat(Pad(x, width), r, Pad(y, width), t);
  }

  // ---- Stamps ----

  /** `YYYY-MM-DDTHH:MM:SS` of a UTC instant in seconds, and what follows. */
  function StampWith(secs: nat, tail: string): string
    requires secs / DAY + 719468 < 0x8000_0000_0000_0000
  {
    Dated(DaysToYmd(secs / DAY), "T" + Clock(secs % DAY, tail))
  }

  function Stamp(secs: nat): string
    requires secs / DAY + 719468 < 0x8000_0000_0000_0000
  {
    StampWith(secs, "Z")
  }

  function DropZeros(digits: string): string {
    if digits != [] && digits[|digits| - 1] == '0' then DropZeros(digits[..|digits| - 1]) else digits
  }

  /** The part of a second an RFC 3339 stamp ends with. */
  function Fraction(nanos: nat): string {
    if nanos == 0 then "Z" else "." + (DropZeros(Pad(nanos, 9)) + "Z")
  }

  /** The stamp a row is written with. */
  function RowStamp(secs: nat, nanos: nat): string
    requires secs / DAY + 719468 < 0x8000_0000_0000_0000
  {
    StampWith(secs, Fraction(nanos))
  }

  function Dated(date: Date, rest: string): string {
    Pad(date.year, 4) + ("-" + (Pad(date.month, 2) + ("-" + (Pad(date.day, 2) + rest))))
  }

  function Clock(rem: nat, tail: string): string {
    Hms(rem / 3600, rem % 3600 / 60, rem % 60, tail)
  }

  function Hms(hour: nat, minute: nat, second: nat, tail: string): string {
    Pad(hour, 2) + (":" + (Pad(minute, 2) + (":" + (Pad(second, 2) + tail))))
  }

  /** The second a row must be older than to be pruned. */
  function CutoffSecond(now: nat, retentionDays: nat): (cutoff: nat)
    ensures cutoff <= now
  {
    var retention := retentionDays * 24 * 60 * 60;
    if now < retention then 0 else now - retention
  }

  function Cutoff(now: nat, retentionDays: nat): string
    requires now / DAY + 719468 < 0x8000_0000_0000_0000
  {
    Stamp(CutoffSecond(now, retentionDays))
  }

  lemma SeparatorIsShared(c: char, r: string, t: string)
    ensures LexLess([c] + r, [c] + t) <==> LexLess(r, t)
  {
    LexIrreflexive([c]);
    LexConcat([c], r, [c], t);
  }

  lemma HmsOrder(h: nat, m: nat, s: nat, r: string, h': nat, m': nat, s': nat, t: string)
    requires h < 100 && m < 60 && s < 60 && h' < 100 && m' < 60 && s' < 60
    ensures var a, b := 3600 * h + 60 * m + s, 3600 * h' + 60 * m' + s';
      LexLess(Hms(h, m, s, r), Hms(h', m', s', t)) <==> a < b || (a == b && LexLess(r, t))
  {
    assert Power(2) == 100;
    FieldDecides(s, s', 2, r, t);
    var sa, sb := Pad(s, 2) + r, Pad(s', 2) + t;
    SeparatorIsShared(':', sa, sb);
    FieldDecides(m, m', 2, ":" + sa, ":" + sb);
    var ma, mb := Pad(m, 2) + (":" + sa), Pad(m', 2) + (":" + sb);
    SeparatorIsShared(':', ma, mb);
    FieldDecides(h, h', 2, ":" + ma, ":" + mb);
  }

  lemma ClockOrder(a: nat, r: string, b: nat, t: string)
    requires a < DAY && b < DAY
    ensures LexLess(Clock(a, r), Clock(b, t)) <==> a < b || (a == b && LexLess(r, t))
  {
    HmsOrder(a / 3600, a % 3600 / 60, a % 60, r, b / 3600, b % 3600 / 60, b % 60, t);
    ClockSplits(a);
    ClockSplits(b);
  }

  lemma ClockSplits(rem: nat)
    requires rem < DAY
    ensures rem / 3600 < 24 && rem == 3600 * (rem / 3600) + 60 * (rem % 3600 / 60) + rem % 60
  {
  }

  predicate Earlier(a: Date, b: Date) {
    a.year < b.year || (a.year == b.year && (a.month < b.month || (a.month == b.month && a.day < b.day)))
  }

  predicate Proper(d: Date) {
    1 <= d.month <= 12 && 1 <= d.day <= 31
  }

  lemma {:induction false} DatesAreProper(n: nat)
    ensures Proper(DaysAfterEpoch(n))
  {
    if n > 0 { DatesAreProper(n - 1); }
  }

  /** Later days have later dates: the date names its day. */
  lemma {:induction false} DatesGrow(i: nat, j: nat)
    requires i < j
    ensures Earlier(DaysAfterEpoch(i), DaysAfterEpoch(j))
  {
    DatesAreProper(j - 1);
    if i < j - 1 { DatesGrow(i, j - 1); }
  }

  lemma DateOrder(a: Date, b: Date, r: string, t: string)
    requires Proper(a) && Proper(b) && a.year <= 9999 && b.year <= 9999
    ensures LexLess(Dated(a, r), Dated(b, t)) <==> Earlier(a, b) || (a == b && LexLess(r, t))
  {
    assert Power(2) == 100 && Power(4) == 10_000;
    FieldDecides(a.day, b.day, 2, r, t);
    var da, db := Pad(a.day, 2) + r, Pad(b.day, 2) + t;
    SeparatorIsShared('-', da, db);
    FieldDecides(a.month, b.month, 2, "-" + da, "-" + db);
    var ma, mb := Pad(a.month, 2) + ("-" + da), Pad(b.month, 2) + ("-" + db);
    SeparatorIsShared('-', ma, mb);
    FieldDecides(a.year, b.year, 4, "-" + ma, "-" + mb);
  }

  predicate Representable(secs: nat) {
    secs / DAY + 719468 < 0x8000_0000_0000_0000 && DaysAfterEpoch(secs / DAY).year <= 9999
  }

  lemma DayAndClockOrder(i: nat, ra: nat, r: string, j: nat, rb: nat, t: string)
    requires ra < DAY && rb < DAY
    requires i + 719468 < 0x8000_0000_0000_0000 && DaysAfterEpoch(i).year <= 9999
    requires j + 719468 < 0x8000_0000_0000_0000 && DaysAfterEpoch(j).year <= 9999
    ensures LexLess(Dated(DaysToYmd(i), "T" + Clock(ra, r)), Dated(DaysToYmd(j), "T" + Clock(rb, t)))
      <==> i < j || (i == j && (ra < rb || (ra == rb && LexLess(r, t))))
  {
    DaysToYmdIsGregorian(i);
    DaysToYmdIsGregorian(j);
    DatesAreProper(i);
    DatesAreProper(j);
    DateOrder(DaysToYmd(i), DaysToYmd(j), "T" + Clock(ra, r), "T" + Clock(rb, t));
    SeparatorIsShared('T', Clock(ra, r), Clock(rb, t));
    ClockOrder(ra, r, rb, t);
    if i < j { DatesGrow(i, j); }
    if j < i { DatesGrow(j, i); }
  }

  /** Through year 9999 the seconds decide between two stamps, and what
      follows them where they are the same. */
  lemma SecondsDecide(a: nat, r: string, b: nat, t: string)
    requires Representable(a) && Representable(b)
    ensures LexLess(StampWith(a, r), StampWith(b, t)) <==> a < b || (a == b && LexLess(r, t))
  {
    DayAndClockOrder(a / DAY, a % DAY, r, b / DAY, b % DAY, t);
  }

  /** Through year 9999, stamps of whole seconds compare as text exactly as
      their instants do. */
  lemma StampOrder(a: nat, b: nat)
    requires Representable(a) && Representable(b)
    ensures LexLess(Stamp(a), Stamp(b)) <==> a < b
  {
    SecondsDecide(a, "Z", b, "Z");
    LexIrreflexive("Z");
  }

  lemma FractionSortsFirst(nanos: nat)
    ensures LexLess(Fraction(nanos), "Z") <==> nanos > 0
  {
    if nanos == 0 { LexIrreflexive("Z"); }
  }

  /** A pass prunes a row of an earlier second than the cutoff, and one of the
      cutoff's own second exactly when its stamp has a fraction. */
  lemma PrunesBySecond(row: nat, nanos: nat, now: nat, retentionDays: nat)
    requires Representable(row) && Representable(now)
    ensures var cutoff := CutoffSecond(now, retentionDays);
      LexLess(RowStamp(row, nanos), Cutoff(now, retentionDays)) <==> row < cutoff || (row == cutoff && nanos > 0)
  {
    var cutoff := CutoffSecond(now, retentionDays);
    EarlierIsRepresentable(cutoff, now);
    SecondsDecide(row, Fraction(nanos), cutoff, "Z");
    FractionSortsFirst(nanos);
  }

  const SECOND: nat := 1_000_000_000

  /** A pass prunes exactly the rows older than the cutoff, unless one with a
      fraction falls in the cutoff's own second: that one goes too, less than
      a second early. */
  lemma PrunesOlderBut(row: nat, nanos: nat, now: nat, retentionDays: nat)
    requires Representable(row) && Representable(now) && nanos < SECOND
    ensures var cutoff := CutoffSecond(now, retentionDays);
      var pruned := LexLess(RowStamp(row, nanos), Cutoff(now, retentionDays));
      && ((pruned <==> row * SECOND + nanos < cutoff * SECOND) <==> !(row == cutoff && nanos > 0))
      && (row * SECOND + nanos < cutoff * SECOND ==> pruned)
      && (pruned ==> row * SECOND + nanos < (cutoff + 1) * SECOND)
  {
    PrunesBySecond(row, nanos, now, retentionDays);
  }

  /** A pass prunes a whole-second row exactly when it is older than the
      retention, and nothing before the epoch is asked for. */
  lemma PrunesExactlyOlder(row: nat, now: nat, retentionDays: nat)
    requires Representable(row) && Representable(now)
    ensures LexLess(Stamp(row), Cutoff(now, retentionDays)) <==> row + retentionDays * DAY < now
  {
    assert retentionDays * 24 * 60 * 60 == retentionDays * DAY;
    PrunesBySecond(row, 0, now, retentionDays);
  }

  /** A row that goes early: one with a fraction in the second that is just as
      old as the retention. */
  lemma FractionGoesEarly(row: nat, nanos: nat, retentionDays: nat)
    requires nanos > 0 && Representable(row + retentionDays * DAY)
    ensures Representable(row)
    ensures LexLess(RowStamp(row, nanos), Cutoff(row + retentionDays * DAY, retentionDays))
  {
    var now := row + retentionDays * DAY;
    assert retentionDays * 24 * 60 * 60 == retentionDays * DAY;
    EarlierIsRepresentable(row, now);
    PrunesBySecond(row, nanos, now, retentionDays);
  }

  lemma EarlierIsRepresentable(a: nat, b: nat)
    requires a <= b && Representable(b)
    ensures Representable(a)
  {
    if a / DAY < b / DAY { DatesGrow(a / DAY, b / DAY); }
  }

  // ---- Reading a stamp ----

  predicate IsNumeral(s: string, width: nat, n: nat) {
    |s| == width && AllDigits(s) && Value(s) == n
  }

  /** The text of an instant, cut at its separators. */
  datatype Parts = Parts(year: string, month: string, day: string, hour: string, minute: string, second: string, tail: string)
  {
    function Text(): string {
      year + "-" + month + "-" + day + "T" + hour + ":" + minute + ":" + second + tail
    }
  }

  /** The parts name the date of the day and the time left of it. */
  predicate Names(p: Parts, secs: nat, hour: nat, minute: nat, second: nat) {
    var date := DaysAfterEpoch(secs / 86_400);
    && IsNumeral(p.year, 4, date.year) && IsNumeral(p.month, 2, date.month) && IsNumeral(p.day, 2, date.day)
    && IsNumeral(p.hour, 2, hour) && IsNumeral(p.minute, 2, minute) && IsNumeral(p.second, 2, second)
    && hour < 24 && minute < 60 && second < 60 && 3600 * hour + 60 * minute + second == secs % 86_400
  }

  /** A whole second ends in Z; a part of one in a point, its digits without
      the zeros at their end, and Z. */
  predicate NamesPart(tail: string, nanos: nat) {
    if nanos == 0 then tail == "Z"
    else |tail| >= 3 && IsFraction(tail[1..|tail| - 1], nanos) && tail[0] == '.' && tail[|tail| - 1] == 'Z'
  }

  predicate IsFraction(digits: string, nanos: nat) {
    && 0 < |digits| <= 9 && AllDigits(digits) && digits[|digits| - 1] != '0'
    && Value(digits) * Power(9 - |digits|) == nanos
  }

  /** A row's stamp read back: its date, its time of day and the part of a
      second. */
  lemma StampReads(secs: nat, nanos: nat) returns (p: Parts, hour: nat, minute: nat, second: nat)
    requires Representable(secs) && nanos < 1_000_000_000
    ensures RowStamp(secs, nanos) == p.Text() && Names(p, secs, hour, minute, second) && NamesPart(p.tail, nanos)
  {
    var rem := secs % DAY;
    hour, minute, second := rem / 3600, rem % 3600 / 60, rem % 60;
    ClockSplits(rem);
    var date := DaysToYmd(secs / DAY);
    DaysToYmdIsGregorian(secs / DAY);
    DatesAreProper(secs / DAY);
    assert Power(2) == 100 && Power(4) == 10_000;
    PadIs(date.year, 4);
    PadIs(date.month, 2);
    PadIs(date.day, 2);
    PadIs(hour, 2);
    PadIs(minute, 2);
    PadIs(second, 2);
    p := Parts(Pad(date.year, 4), Pad(date.month, 2), Pad(date.day, 2), Pad(hour, 2), Pad(minute, 2), Pad(second, 2), Fraction(nanos));
    Regrouped(p);
    FractionReads(nanos);
  }

  lemma Regrouped(p: Parts)
    ensures p.Text() == p.year + ("-" + (p.month + ("-" + (p.day + ("T" + (p.hour + (":" + (p.minute + (":" + (p.second + p.tail))))))))))
  {
  }

  lemma FractionReads(nanos: nat)
    requires nanos < 1_000_000_000
    ensures NamesPart(Fraction(nanos), nanos)
  {
    if nanos > 0 {
      NineDigits(nanos);
      var digits := DropZeros(Pad(nanos, 9));
      assert Fraction(nanos) == "." + (digits + "Z");
      assert Fraction(nanos)[1..|Fraction(nanos)| - 1] == digits;
    }
  }

  lemma NineDigits(nanos: nat)
    requires 0 < nanos < 1_000_000_000
    ensures IsFraction(DropZeros(Pad(nanos, 9)), nanos)
  {
    assert Power(9) == 1_000_000_000;
    PadIs(nanos, 9);
    DropZerosKeepsValue(Pad(nanos, 9));
  }

  lemma {:induction false} DropZerosKeepsValue(s: string)
    requires AllDigits(s)
    ensures var digits := DropZeros(s);
      && |digits| <= |s| && AllDigits(digits) && (digits != [] ==> digits[|digits| - 1] != '0')
      && Value(s) == Value(digits) * Power(|s| - |digits|)
  {
    if s != [] && s[|s| - 1] == '0' {
      var front := s[..|s| - 1];
      DropZerosKeepsValue(front);
      TenTimes(Value(DropZeros(front)), |front| - |DropZeros(front)|);
    }
  }

  lemma TenTimes(value: nat, k: nat)
    ensures 10 * (value * Power(k)) == value * Power(k + 1)
  {
  }
}
