/** What a frame's night and fields say, read off its headers. */
module CaptureMeaning {
  import opened Wrappers
  import opened Text
  import opened CaptureKey
  import opened CaptureDerivation

  // ---- The night ----

  /** `t` lies between the noon of this day and the next, within the years
      -9999 to 9999; days count from 1970-01-01. */
  predicate NoonToNoon(t: real, day: int) {
    && -4371588 <= day <= 2932896
    && day as real * 86400.0 + 43200.0 <= t < day as real * 86400.0 + 129600.0
  }

  predicate InYears(t: real) {
    -4371588.0 * 86400.0 <= t < 2932897.0 * 86400.0
  }

  lemma NoonSays(t: real, day: int)
    ensures NoonNight(t) == Some(day) <==> NoonToNoon(t, day)
  {
    NightIsNoonToNoon(t, day);
  }

  /** A longitude counted east from -180 to 360 degrees becomes the same one
      from -180 to 180. */
  lemma EastSays(degrees: real)
    ensures EastLongitude(degrees).Some? <==> -180.0 <= degrees <= 360.0
    ensures EastLongitude(degrees).Some? ==>
      var east := EastLongitude(degrees).value;
      -180.0 <= east <= 180.0 && (east == degrees || east == degrees - 360.0) && (degrees <= 180.0 ==> east == degrees)
  {
  }

  /** The instant a header names: its time less its offset from UTC. */
  predicate IsUtc(h: Option<Header>, utc: real) {
    && h.Some? && h.value.Moment?
    && if h.value.offset.None? then utc == h.value.seconds
       else utc == h.value.seconds - h.value.offset.value as real && InYears(utc)
  }

  lemma UtcSays(h: Option<Header>, utc: real)
    ensures ObservedUtc(h) == Some(utc) <==> IsUtc(h, utc)
  {
  }

  predicate HasLocalNight(m: Metadata, day: int) {
    m.dateLocal.Some? && m.dateLocal.value.Moment? && NoonToNoon(m.dateLocal.value.seconds, day)
  }

  /** Mean solar time runs four minutes a degree ahead of UTC to the east. */
  predicate HasSolarNight(m: Metadata, utc: real, east: real, day: int) {
    && IsUtc(m.dateObs, utc) && m.longitude.Some? && EastLongitude(m.longitude.value) == Some(east)
    && InYears(utc + 240.0 * east) && NoonToNoon(utc + 240.0 * east, day)
  }

  /** The night is that of the local time, when it has one. */
  lemma LocalNightSays(m: Metadata, day: int)
    ensures Night(m) == Some((day, DateLocNoon)) <==> HasLocalNight(m, day)
  {
    if m.dateLocal.Some? && m.dateLocal.value.Moment? { NoonSays(m.dateLocal.value.seconds, day); }
  }

  lemma NoLocalNight(m: Metadata)
    ensures LocalNight(m.dateLocal).None? <==> forall day :: !HasLocalNight(m, day)
  {
    if m.dateLocal.Some? && m.dateLocal.value.Moment? {
      var t := m.dateLocal.value.seconds;
      if NoonNight(t).Some? {
        NoonSays(t, NoonNight(t).value);
        assert HasLocalNight(m, NoonNight(t).value);
      } else {
        forall day ensures !HasLocalNight(m, day) { NoonSays(t, day); }
      }
    }
  }

  /** Else it is that of the mean solar time at the site, when that has one. */
  lemma SolarNightSays(m: Metadata, day: int)
    ensures Night(m) == Some((day, LongitudeNoon)) <==>
      (forall d :: !HasLocalNight(m, d)) && exists utc, east :: HasSolarNight(m, utc, east, day)
  {
    NoLocalNight(m);
    var utc := ObservedUtc(m.dateObs);
    if utc.Some? {
      UtcSays(m.dateObs, utc.value);
      if m.longitude.Some? && EastLongitude(m.longitude.value).Some? {
        var east := EastLongitude(m.longitude.value).value;
        NoonSays(utc.value + 240.0 * east, day);
        assert SolarNight(utc, m.longitude) == Some(day) <==> HasSolarNight(m, utc.value, east, day);
      }
    }
    forall u, e | HasSolarNight(m, u, e, day) ensures utc == Some(u) { UtcSays(m.dateObs, u); }
  }

  /** Else it is the UTC date observed, written alone or with a time. */
  lemma UtcDateSays(m: Metadata, day: int)
    ensures Night(m) == Some((day, UtcDate)) <==>
      && (forall d :: !HasLocalNight(m, d)) && (forall d, utc, east :: !HasSolarNight(m, utc, east, d))
      && m.dateObs.Some?
      && (m.dateObs.value == DateOnly(day) || exists utc :: OnDay(m, utc, day))
  {
    NoLocalNight(m);
    NoSolarNight(m);
    var utc := ObservedUtc(m.dateObs);
    if utc.Some? {
      UtcSays(m.dateObs, utc.value);
      DayHolds(utc.value, day);
      assert DayOf(utc.value) == day <==> OnDay(m, utc.value, day);
    }
    forall u | OnDay(m, u, day) ensures utc == Some(u) { UtcSays(m.dateObs, u); }
  }

  predicate OnDay(m: Metadata, utc: real, day: int) {
    IsUtc(m.dateObs, utc) && day as real * 86400.0 <= utc < (day as real + 1.0) * 86400.0
  }

  lemma DayHolds(t: real, day: int)
    ensures DayOf(t) == day <==> day as real * 86400.0 <= t < (day as real + 1.0) * 86400.0
  {
    var n := DayOf(t);
    assert n as real * 86400.0 <= t < n as real * 86400.0 + 86400.0;
    DaysApart(n, day, t);
  }

  lemma NoSolarNight(m: Metadata)
    ensures SolarNight(ObservedUtc(m.dateObs), m.longitude).None? <==> forall d, utc, east :: !HasSolarNight(m, utc, east, d)
  {
    var utc := ObservedUtc(m.dateObs);
    var solar := SolarNight(utc, m.longitude);
    if solar.Some? {
      var east := EastLongitude(m.longitude.value).value;
      UtcSays(m.dateObs, utc.value);
      NoonSays(utc.value + 240.0 * east, solar.value);
      assert HasSolarNight(m, utc.value, east, solar.value);
    } else {
      forall d, u, e ensures !HasSolarNight(m, u, e, d) {
        UtcSays(m.dateObs, u);
        NoonSays(u + 240.0 * e, d);
      }
    }
  }

  // ---- The fields ----

  /** A text header, trimmed and composed; one that comes to nothing says
      nothing. */
  predicate IsText(c: Canon, header: Option<string>, value: Option<string>) {
    if header.None? then value.None?
    else
      var text := c.compose(Trim(header.value, IsWhitespace));
      if text == [] then value.None? else value == Some(text)
  }

  predicate IsNumber(c: Canon, header: Option<Number>, value: Option<string>) {
    if header.Some? && header.value.Finite? then value == Some(c.shown(header.value.value)) else value.None?
  }

  predicate IsCount(header: Option<nat>, value: Option<string>) {
    if header.Some? then value == Some(Decimal(header.value)) else value.None?
  }

  /** A whole number's text is its digits, a minus before them when it is below
      zero. */
  predicate IsWhole(header: Option<int>, value: Option<string>) {
    if header.None? then value.None?
    else if header.value >= 0 then value == Some(Decimal(header.value))
    else value.Some? && value.value != [] && value.value[0] == '-' && value.value[1..] == Decimal(0 - header.value)
  }

  predicate IsExposure(c: Canon, header: Option<Number>, value: Option<string>) {
    if header.Some? && header.value.Finite? && header.value.value >= 0.0 then value == Some(c.shown(header.value.value))
    else value.None?
  }

  /** A recognised image type is named; another is quoted; none or a blank one
      says nothing. */
  predicate IsImageType(c: Canon, header: Option<string>, value: Option<string>) {
    if header.None? || Trim(header.value, IsWhitespace) == [] then value.None?
    else
      var text := c.compose(Trim(header.value, IsWhitespace));
      match c.frameOf(text)
      case None => value == Some("unclassified:" + text)
      case Some(Light) => value == Some("light")
      case Some(Dark) => value == Some("dark")
      case Some(Bias) => value == Some("bias")
      case Some(Flat) => value == Some("flat")
      case Some(DarkFlat) => value == Some("dark_flat")
  }

  predicate IsNight(c: Canon, m: Metadata, value: Option<string>) {
    match Night(m)
    case None => value.None?
    case Some((day, DateLocNoon)) => value == Some(c.dateText(day) + "@" + "date-loc-noon")
    case Some((day, LongitudeNoon)) => value == Some(c.dateText(day) + "@" + "longitude-mean-solar-noon")
    case Some((day, UtcDate)) => value == Some(c.dateText(day) + "@" + "utc-date-provisional")
  }

  lemma HeadSays(c: Canon, m: Metadata)
    ensures var f := HeadFields(c, m);
      && |f| == 2
      && f[0].name == "type" && IsImageType(c, m.imageType, f[0].value)
      && f[1].name == "night" && IsNight(c, m, f[1].value)
  {
    match ImageTypeOf(c, m)
    case Known(frame) => match frame { case Light => case Dark => case Bias => case Flat => case DarkFlat => }
    case Unclassified(_) =>
    case BlankType =>
    case AbsentType =>
  }

  lemma ShotSays(c: Canon, m: Metadata)
    ensures var f := ShotFields(c, m);
      && |f| == 8
      && f[0].name == "camera" && IsText(c, m.camera, f[0].value)
      && f[1].name == "camera_id" && IsText(c, m.cameraId, f[1].value)
      && f[2].name == "telescope" && IsText(c, m.telescope, f[2].value)
      && f[3].name == "focal_length_mm" && IsNumber(c, m.focalLength, f[3].value)
      && f[4].name == "filter" && IsText(c, m.filter, f[4].value)
      && f[5].name == "exposure_s" && IsExposure(c, m.exposure, f[5].value)
      && f[6].name == "gain" && IsNumber(c, m.gain, f[6].value)
      && f[7].name == "offset" && IsWhole(m.offset, f[7].value)
  {
  }

  lemma ChipSays(c: Canon, m: Metadata)
    ensures var f := ChipFields(c, m);
      && |f| == 6
      && f[0].name == "binning_x" && IsCount(m.binningX, f[0].value)
      && f[1].name == "binning_y" && IsCount(m.binningY, f[1].value)
      && f[2].name == "width" && IsCount(m.width, f[2].value)
      && f[3].name == "height" && IsCount(m.height, f[3].value)
      && f[4].name == "readout" && IsText(c, m.readout, f[4].value)
      && f[5].name == "set_temp_c" && IsNumber(c, m.setTemperature, f[5].value)
  {
  }

  /** Every field of a key, from the header it comes from. */
  lemma FieldsSay(c: Canon, m: Metadata)
    ensures var f := Fields(c, m);
      && |f| == 16
      && f[0].name == "type" && IsImageType(c, m.imageType, f[0].value)
      && f[1].name == "night" && IsNight(c, m, f[1].value)
      && f[2].name == "camera" && IsText(c, m.camera, f[2].value)
      && f[3].name == "camera_id" && IsText(c, m.cameraId, f[3].value)
      && f[4].name == "telescope" && IsText(c, m.telescope, f[4].value)
      && f[5].name == "focal_length_mm" && IsNumber(c, m.focalLength, f[5].value)
      && f[6].name == "filter" && IsText(c, m.filter, f[6].value)
      && f[7].name == "exposure_s" && IsExposure(c, m.exposure, f[7].value)
      && f[8].name == "gain" && IsNumber(c, m.gain, f[8].value)
      && f[9].name == "offset" && IsWhole(m.offset, f[9].value)
      && f[10].name == "binning_x" && IsCount(m.binningX, f[10].value)
      && f[11].name == "binning_y" && IsCount(m.binningY, f[11].value)
      && f[12].name == "width" && IsCount(m.width, f[12].value)
      && f[13].name == "height" && IsCount(m.height, f[13].value)
      && f[14].name == "readout" && IsText(c, m.readout, f[14].value)
      && f[15].name == "set_temp_c" && IsNumber(c, m.setTemperature, f[15].value)
  {
    HeadSays(c, m);
    ShotSays(c, m);
    ChipSays(c, m);
  }
}
