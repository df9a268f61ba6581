/** Deriving a frame's capture key from its metadata. */
module CaptureDerivation {
  import opened Wrappers
  import opened Text
  import opened CaptureKey

  // ---- Metadata ----

  datatype FrameType = Light | Dark | Bias | Flat | DarkFlat

  function FrameText(f: FrameType): string {
    match f
    case Light => "light"
    case Dark => "dark"
    case Bias => "bias"
    case Flat => "flat"
    case DarkFlat => "dark_flat"
  }

  datatype Number = NotFinite | Finite(value: real)

  /** A date header as it parsed: a date alone, or a moment in seconds from
      the epoch with its offset from UTC where one is written. */
  datatype Header = Malformed | DateOnly(day: int) | Moment(seconds: real, offset: Option<int>)

  datatype Metadata = Metadata(
    imageType: Option<string>, dateLocal: Option<Header>, dateObs: Option<Header>, longitude: Option<real>,
    camera: Option<string>, cameraId: Option<string>, telescope: Option<string>, focalLength: Option<Number>,
    filter: Option<string>, exposure: Option<Number>, gain: Option<Number>, offset: Option<int>,
    binningX: Option<nat>, binningY: Option<nat>, width: Option<nat>, height: Option<nat>,
    readout: Option<string>, setTemperature: Option<Number>, raw: map<string, string>)

  /** Unicode composition, the shortest decimal of a number, the recognised
      frame types and the text of a date, as given functions. */
  datatype Canon = Canon(
    compose: string -> string,
    shown: real -> string,
    frameOf: string -> Option<FrameType>,
    dateText: int -> string)

  // ---- The observing night ----

  const DAY: real := 86400.0
  const NOON: real := 43200.0
  const MIN_DAY: int := -4371588
  const MAX_DAY: int := 2932896

  /** Within the calendar, from the year -9999 to 9999. */
  predicate InRange(t: real) {
    (MIN_DAY as real) * DAY <= t < (MAX_DAY as real) * DAY + DAY
  }

  function DayOf(t: real): int {
    (t / DAY).Floor
  }

  /** The date of the last noon at or before `t`. */
  function NoonNight(t: real): Option<int> {
    if InRange(t - NOON) then Some(DayOf(t - NOON)) else None
  }

  /** A night runs from its date's noon to the next. */
  lemma NightIsNoonToNoon(t: real, day: int)
    ensures NoonNight(t) == Some(day) <==>
      MIN_DAY <= day <= MAX_DAY && (day as real) * DAY + NOON <= t < (day as real) * DAY + DAY + NOON
  {
    var n := DayOf(t - NOON);
    assert (n as real) * DAY <= t - NOON < (n as real) * DAY + DAY;
    DaysApart(n, day, t - NOON);
    DaysApart(n, MIN_DAY, t - NOON);
    DaysApart(n, MAX_DAY, t - NOON);
  }

  lemma DaysApart(a: int, b: int, t: real)
    requires (a as real) * DAY <= t < (a as real) * DAY + DAY
    ensures (b as real) * DAY <= t <==> b <= a
    ensures t < (b as real) * DAY + DAY <==> a <= b
  {
    if b <= a {
      assert (b as real) * DAY <= (a as real) * DAY;
      assert b < a ==> (b as real) + 1.0 <= (a as real);
    } else {
      assert (a as real) + 1.0 <= (b as real);
    }
  }

  datatype Basis = DateLocNoon | LongitudeNoon | UtcDate

  function BasisText(b: Basis): string {
    match b
    case DateLocNoon => "date-loc-noon"
    case LongitudeNoon => "longitude-mean-solar-noon"
    case UtcDate => "utc-date-provisional"
  }

  function EastLongitude(degrees: real): Option<real> {
    if degrees < -180.0 || degrees > 360.0 then None
    else Some(if degrees > 180.0 then degrees - 360.0 else degrees)
  }

  function ToUtc(seconds: real, offset: Option<int>): Option<real> {
    if offset.None? then Some(seconds)
    else if InRange(seconds - offset.value as real) then Some(seconds - offset.value as real)
    else None
  }

  function LocalNight(h: Option<Header>): Option<int> {
    if h.Some? && h.value.Moment? then NoonNight(h.value.seconds) else None
  }

  function ObservedUtc(h: Option<Header>): Option<real> {
    if h.Some? && h.value.Moment? then ToUtc(h.value.seconds, h.value.offset) else None
  }

  function SolarNight(utc: Option<real>, longitude: Option<real>): Option<int> {
    if utc.None? || longitude.None? || EastLongitude(longitude.value).None? then None
    else
      var shifted := utc.value + EastLongitude(longitude.value).value * 240.0;
      if InRange(shifted) then NoonNight(shifted) else None
  }

  /** The local time's night, else the solar one at the site, else the UTC date. */
  function Night(m: Metadata): Option<(int, Basis)> {
    var utc := ObservedUtc(m.dateObs);
    var solar := SolarNight(utc, m.longitude);
    if LocalNight(m.dateLocal).Some? then Some((LocalNight(m.dateLocal).value, DateLocNoon))
    else if solar.Some? then Some((solar.value, LongitudeNoon))
    else if m.dateObs.Some? && m.dateObs.value.DateOnly? then Some((m.dateObs.value.day, UtcDate))
    else if utc.Some? then Some((DayOf(utc.value), UtcDate))
    else None
  }

  // ---- The fields ----

  function CanonicalText(c: Canon, value: string): Option<string> {
    var text := c.compose(Trim(value, IsWhitespace));
    if text == [] then None else Some(text)
  }

  datatype ImageType = Known(frame: FrameType) | Unclassified(text: string) | BlankType | AbsentType

  function ImageTypeOf(c: Canon, m: Metadata): ImageType {
    if m.imageType.None? then AbsentType
    else
      var trimmed := Trim(m.imageType.value, IsWhitespace);
      if trimmed == [] then BlankType
      else
        var frame := c.frameOf(c.compose(trimmed));
        if frame.Some? then Known(frame.value) else Unclassified(c.compose(trimmed))
  }

  function TypeField(c: Canon, m: Metadata): Field {
    Field("type",
      match ImageTypeOf(c, m)
      case Known(frame) => Some(FrameText(frame))
      case Unclassified(text) => Some("unclassified:" + text)
      case BlankType => None
      case AbsentType => None)
  }

  function NightField(c: Canon, m: Metadata): Field {
    var n := Night(m);
    Field("night", if n.None? then None else Some(c.dateText(n.value.0) + "@" + BasisText(n.value.1)))
  }

  function TextField(c: Canon, name: string, value: Option<string>): Field {
    Field(name, if value.None? then None else CanonicalText(c, value.value))
  }

  function NumberField(c: Canon, name: string, value: Option<Number>): Field {
    Field(name, if value.None? || value.value.NotFinite? then None else Some(c.shown(value.value.value)))
  }

  function CountField(name: string, value: Option<nat>): Field {
    Field(name, if value.None? then None else Some(Decimal(value.value)))
  }

  function IntText(n: int): string {
    if n < 0 then "-" + Decimal(-n) else Decimal(n)
  }

  function OffsetField(value: Option<int>): Field {
    Field("offset", if value.None? then None else Some(IntText(value.value)))
  }

  /** A negative exposure is no exposure. */
  function UsableExposure(value: Option<Number>): Option<Number> {
    if value.Some? && value.value.Finite? && value.value.value >= 0.0 then value else None
  }

  function CameraFields(c: Canon, m: Metadata): seq<Field> {
    [TextField(c, "camera", m.camera), TextField(c, "camera_id", m.cameraId)]
  }

  function OpticsFields(c: Canon, m: Metadata): seq<Field> {
    [TextField(c, "telescope", m.telescope), NumberField(c, "focal_length_mm", m.focalLength),
     TextField(c, "filter", m.filter)]
  }

  function ExposureFields(c: Canon, m: Metadata): seq<Field> {
    [NumberField(c, "exposure_s", UsableExposure(m.exposure)), NumberField(c, "gain", m.gain), OffsetField(m.offset)]
  }

  function BinningFields(m: Metadata): seq<Field> {
    [CountField("binning_x", m.binningX), CountField("binning_y", m.binningY)]
  }

  function SizeFields(m: Metadata): seq<Field> {
    [CountField("width", m.width), CountField("height", m.height)]
  }

  function ReadoutFields(c: Canon, m: Metadata): seq<Field> {
    [TextField(c, "readout", m.readout), NumberField(c, "set_temp_c", m.setTemperature)]
  }

  function HeadFields(c: Canon, m: Metadata): seq<Field> {
    [TypeField(c, m), NightField(c, m)]
  }

  function Fields(c: Canon, m: Metadata): seq<Field> {
    HeadFields(c, m) + ShotFields(c, m) + ChipFields(c, m)
  }

  function ShotFields(c: Canon, m: Metadata): seq<Field> {
    CameraFields(c, m) + OpticsFields(c, m) + ExposureFields(c, m)
  }

  function ChipFields(c: Canon, m: Metadata): seq<Field> {
    BinningFields(m) + SizeFields(m) + ReadoutFields(c, m)
  }

  // ---- The writer ----

  /** Why a field is unknown. */
  datatype Reason =
    | BlankValue
    | NotUsable(header: string, value: string)
    | HeaderAbsent(header: string)
    | NotRecorded
    | NoUsableDate

  datatype Note = Missing(name: string, reason: Reason) | Unrecognised(text: string)

  function MissingNames(notes: seq<Note>): seq<string> {
    if notes == [] then []
    else MissingNames(notes[..|notes| - 1]) + if notes[|notes| - 1].Missing? then [notes[|notes| - 1].name] else []
  }

  function UnknownNames(fields: seq<Field>): seq<string> {
    if fields == [] then []
    else UnknownNames(fields[..|fields| - 1]) + if fields[|fields| - 1].value.None? then [fields[|fields| - 1].name] else []
  }

  /** Builds a key field by field, and the notes that say what is unknown. */
  class KeyWriter {
    var key: string
    var provisional: seq<Note>
    const raw: map<string, string>
    ghost var written: seq<Field>

    ghost predicate Valid()
      reads this
    {
      key == Encode(written) && MissingNames(provisional) == UnknownNames(written)
    }

    constructor (raw: map<string, string>)
      ensures Valid() && written == [] && this.raw == raw
    {
      key, provisional, written := KEY_VERSION, [], [];
      this.raw := raw;
      new;
      assert KEY_VERSION + FieldsText([]) == KEY_VERSION;
    }

    method WriteValue(value: string)
      modifies this`key
      ensures key == old(key) + Escape(value)
    {
      assert value[0..] == value;
      for i := 0 to |value|
        invariant key + Escape(value[i..]) == old(key) + Escape(value)
      {
        var code := if value[i] == '%' then "%25" else if value[i] == '|' then "%7C" else [value[i]];
        EscapeNext(key, value, i, code);
        key := key + code;
      }
      assert value[|value|..] == [] && key + [] == key;
    }

    method Known(name: string, value: string)
      requires Valid()
      modifies this`key, this`written
      ensures Valid() && written == old(written) + [Field(name, Some(value))]
    {
      ghost var f := Field(name, Some(value));
      key := key + ['|'] + name + ['='];
      WriteValue(value);
      assert key == old(key) + FieldText(f);
      written := written + [f];
      WrittenGrows(old(written), f, old(key));
    }

    method Unknown(name: string, reason: Reason)
      requires Valid()
      modifies this
      ensures Valid() && written == old(written) + [Field(name, None)]
      ensures provisional == old(provisional) + [Missing(name, reason)]
    {
      ghost var f := Field(name, None);
      key := key + ['|'] + name + ['?'];
      assert key == old(key) + FieldText(f);
      provisional := provisional + [Missing(name, reason)];
      written := written + [f];
      WrittenGrows(old(written), f, old(key));
      assert provisional[..|provisional| - 1] == old(provisional);
    }

    method UnknownFromHeader(name: string, header: Option<string>)
      requires Valid()
      modifies this
      ensures Valid() && written == old(written) + [Field(name, None)]
      ensures provisional == old(provisional) + [Missing(name, HeaderReason(raw, header))]
    {
      Unknown(name, HeaderReason(raw, header));
    }

    method Remark(text: string)
      requires Valid()
      modifies this`provisional
      ensures Valid()
    {
      provisional := provisional + [Unrecognised(text)];
      assert provisional[..|provisional| - 1] == old(provisional);
    }

    method WriteText(c: Canon, name: string, value: Option<string>, header: string)
      requires Valid()
      modifies this
      ensures Valid() && written == old(written) + [TextField(c, name, value)]
    {
      if value.None? {
        UnknownFromHeader(name, Some(header));
      } else {
        var text := CanonicalText(c, value.value);
        if text.Some? { Known(name, text.value); } else { Unknown(name, BlankValue); }
      }
    }

    method WriteNumber(c: Canon, name: string, value: Option<Number>, header: Option<string>)
      requires Valid()
      modifies this
      ensures Valid() && written == old(written) + [NumberField(c, name, value)]
    {
      if value.Some? && value.value.Finite? {
        Known(name, c.shown(value.value.value));
      } else {
        UnknownFromHeader(name, header);
      }
    }

    method WriteCount(name: string, value: Option<nat>, header: string)
      requires Valid()
      modifies this
      ensures Valid() && written == old(written) + [CountField(name, value)]
    {
      if value.Some? { Known(name, Decimal(value.value)); } else { UnknownFromHeader(name, Some(header)); }
    }

    method WriteType(c: Canon, m: Metadata)
      requires Valid()
      modifies this
      ensures Valid() && written == old(written) + [TypeField(c, m)]
    {
      match ImageTypeOf(c, m)
      case Known(frame) => Known("type", FrameText(frame));
      case Unclassified(text) =>
        Known("type", "unclassified:" + text);
        Remark(text);
      case BlankType => Unknown("type", BlankValue);
      case AbsentType => UnknownFromHeader("type", Some("IMAGETYP"));
    }

    method WriteNight(c: Canon, m: Metadata)
      requires Valid()
      modifies this
      ensures Valid() && written == old(written) + [NightField(c, m)]
    {
      var n := Night(m);
      if n.Some? {
        Known("night", c.dateText(n.value.0) + "@" + BasisText(n.value.1));
      } else {
        Unknown("night", NoUsableDate);
      }
    }

    method WriteHead(c: Canon, m: Metadata)
      requires Valid()
      modifies this
      ensures Valid() && written == old(written) + HeadFields(c, m)
    {
      WriteType(c, m);
      WriteNight(c, m);
    }

    method WriteAll(c: Canon, m: Metadata)
      requires Valid() && written == []
      modifies this
      ensures Valid() && written == Fields(c, m)
    {
      WriteHead(c, m);
      assert written == HeadFields(c, m);
      WriteShot(c, m);
      WriteChip(c, m);
    }

    method WriteShot(c: Canon, m: Metadata)
      requires Valid()
      modifies this
      ensures Valid() && written == old(written) + ShotFields(c, m)
    {
      WriteCamera(c, m);
      WriteOptics(c, m);
      WriteExposure(c, m);
      Grouped(old(written), CameraFields(c, m), OpticsFields(c, m), ExposureFields(c, m));
    }

    method WriteChip(c: Canon, m: Metadata)
      requires Valid()
      modifies this
      ensures Valid() && written == old(written) + ChipFields(c, m)
    {
      WriteBinning(m);
      WriteSize(m);
      WriteReadout(c, m);
      Grouped(old(written), BinningFields(m), SizeFields(m), ReadoutFields(c, m));
    }

    method WriteCamera(c: Canon, m: Metadata)
      requires Valid()
      modifies this
      ensures Valid() && written == old(written) + CameraFields(c, m)
    {
      WriteText(c, "camera", m.camera, "INSTRUME");
      WriteText(c, "camera_id", m.cameraId, "CAMERAID");
    }

    method WriteOptics(c: Canon, m: Metadata)
      requires Valid()
      modifies this
      ensures Valid() && written == old(written) + OpticsFields(c, m)
    {
      WriteText(c, "telescope", m.telescope, "TELESCOP");
      WriteNumber(c, "focal_length_mm", m.focalLength, None);
      WriteText(c, "filter", m.filter, "FILTER");
    }

    method WriteExposure(c: Canon, m: Metadata)
      requires Valid()
      modifies this
      ensures Valid() && written == old(written) + ExposureFields(c, m)
    {
      WriteNumber(c, "exposure_s", UsableExposure(m.exposure), Some("EXPTIME"));
      WriteNumber(c, "gain", m.gain, Some("GAIN"));
      if m.offset.Some? {
        Known("offset", IntText(m.offset.value));
      } else {
        UnknownFromHeader("offset", None);
      }
    }

    method WriteBinning(m: Metadata)
      requires Valid()
      modifies this
      ensures Valid() && written == old(written) + BinningFields(m)
    {
      WriteCount("binning_x", m.binningX, "XBINNING");
      WriteCount("binning_y", m.binningY, "YBINNING");
    }

    method WriteSize(m: Metadata)
      requires Valid()
      modifies this
      ensures Valid() && written == old(written) + SizeFields(m)
    {
      WriteCount("width", m.width, "NAXIS1");
      WriteCount("height", m.height, "NAXIS2");
    }

    method WriteReadout(c: Canon, m: Metadata)
      requires Valid()
      modifies this
      ensures Valid() && written == old(written) + ReadoutFields(c, m)
    {
      WriteText(c, "readout", m.readout, "READOUTM");
      WriteNumber(c, "set_temp_c", m.setTemperature, None);
    }
  }

  lemma Grouped(was: seq<Field>, a: seq<Field>, b: seq<Field>, c: seq<Field>)
    ensures was + a + b + c == was + (a + b + c)
  {
  }

  function HeaderReason(raw: map<string, string>, header: Option<string>): Reason {
    if header.None? then NotRecorded
    else if header.value in raw then NotUsable(header.value, raw[header.value])
    else HeaderAbsent(header.value)
  }

  /** One character's code more, and that character less to write. */
  lemma EscapeNext(key: string, value: string, i: nat, code: string)
    requires i < |value|
    requires code == if value[i] == '%' then "%25" else if value[i] == '|' then "%7C" else [value[i]]
    ensures key + Escape(value[i..]) == key + code + Escape(value[i + 1..])
  {
    assert value[i..][1..] == value[i + 1..];
    assert key + (code + Escape(value[i + 1..])) == key + code + Escape(value[i + 1..]);
  }

  lemma WrittenGrows(was: seq<Field>, f: Field, key: string)
    requires key == Encode(was)
    ensures Encode(was + [f]) == key + FieldText(f)
    ensures UnknownNames(was + [f]) == UnknownNames(was) + if f.value.None? then [f.name] else []
  {
    assert (was + [f])[..|was|] == was;
    assert KEY_VERSION + (FieldsText(was) + FieldText(f)) == KEY_VERSION + FieldsText(was) + FieldText(f);
  }

  // ---- A capture ----

  datatype Capture = Capture(key: string, basis: Option<Basis>, light: bool)

  function CaptureOf(c: Canon, m: Metadata): Capture {
    var n := Night(m);
    Capture(Encode(Fields(c, m)), if n.None? then None else Some(n.value.1), ImageTypeOf(c, m) == Known(Light))
  }

  /** The frame's capture; every unknown field, and no other, is noted. */
  method Derive(c: Canon, m: Metadata) returns (capture: Capture, notes: seq<Note>)
    ensures capture == CaptureOf(c, m)
    ensures MissingNames(notes) == UnknownNames(Fields(c, m))
  {
    var w := new KeyWriter(m.raw);
    w.WriteAll(c, m);
    var n := Night(m);
    capture := Capture(w.key, if n.None? then None else Some(n.value.1), ImageTypeOf(c, m) == Known(Light));
    notes := w.provisional;
  }

  // ---- What a key says ----

  /** A date's text has no `@`. */
  ghost predicate Usual(c: Canon) {
    forall d :: '@' !in c.dateText(d)
  }

  lemma FieldNamesArePlain(c: Canon, m: Metadata)
    ensures PlainNames(Fields(c, m)) && |Fields(c, m)| == 16
  {
    HeadIsPlain(c, m);
    ShotIsPlain(c, m);
    ChipIsPlain(c, m);
    PlainNamesAdd(HeadFields(c, m), ShotFields(c, m));
    PlainNamesAdd(HeadFields(c, m) + ShotFields(c, m), ChipFields(c, m));
  }

  lemma PlainNamesAdd(a: seq<Field>, b: seq<Field>)
    requires PlainNames(a) && PlainNames(b)
    ensures PlainNames(a + b)
  {
  }

  lemma HeadIsPlain(c: Canon, m: Metadata)
    ensures PlainNames(HeadFields(c, m))
  {
  }

  lemma ShotIsPlain(c: Canon, m: Metadata)
    ensures PlainNames(ShotFields(c, m)) && |ShotFields(c, m)| == 8
  {
    CameraIsPlain(c, m);
    OpticsIsPlain(c, m);
    ExposureIsPlain(c, m);
    PlainNamesAdd(CameraFields(c, m), OpticsFields(c, m));
    PlainNamesAdd(CameraFields(c, m) + OpticsFields(c, m), ExposureFields(c, m));
  }

  lemma CameraIsPlain(c: Canon, m: Metadata)
    ensures PlainNames(CameraFields(c, m))
  {
  }

  lemma FocalLengthIsPlain()
    ensures PlainName("focal_length_mm")
  {
  }

  lemma OpticsIsPlain(c: Canon, m: Metadata)
    ensures PlainNames(OpticsFields(c, m))
  {
    FocalLengthIsPlain();
  }

  lemma ExposureIsPlain(c: Canon, m: Metadata)
    ensures PlainNames(ExposureFields(c, m))
  {
  }

  lemma BinningIsPlain(m: Metadata)
    ensures PlainNames(BinningFields(m))
  {
  }

  lemma SizeIsPlain(m: Metadata)
    ensures PlainNames(SizeFields(m))
  {
  }

  lemma ReadoutIsPlain(c: Canon, m: Metadata)
    ensures PlainNames(ReadoutFields(c, m))
  {
  }

  lemma ChipIsPlain(c: Canon, m: Metadata)
    ensures PlainNames(ChipFields(c, m)) && |ChipFields(c, m)| == 6
  {
    BinningIsPlain(m);
    SizeIsPlain(m);
    ReadoutIsPlain(c, m);
    PlainNamesAdd(BinningFields(m), SizeFields(m));
    PlainNamesAdd(BinningFields(m) + SizeFields(m), ReadoutFields(c, m));
  }

  /** Two frames share a key exactly when all their canonical fields agree. */
  lemma SameKeySameFields(c: Canon, a: Metadata, b: Metadata)
    ensures CaptureOf(c, a).key == CaptureOf(c, b).key <==> Fields(c, a) == Fields(c, b)
  {
    FieldNamesArePlain(c, a);
    FieldNamesArePlain(c, b);
    KeyDecides(Fields(c, a), Fields(c, b));
  }

  /** From the key alone, the fields. */
  lemma FieldsFromKey(c: Canon, m: Metadata)
    ensures Decode(CaptureOf(c, m).key) == Fields(c, m)
  {
    FieldNamesArePlain(c, m);
    KeyIsRead(Fields(c, m));
  }

  function BasisOf(night: Option<string>): Option<Basis> {
    if night.None? then None
    else
      var at := IndexOf(night.value, '@');
      if at == |night.value| then None
      else
        var basis := night.value[at + 1..];
        if basis == BasisText(DateLocNoon) then Some(DateLocNoon)
        else if basis == BasisText(LongitudeNoon) then Some(LongitudeNoon)
        else Some(UtcDate)
  }

  lemma BasisIsRead(date: string, b: Basis)
    requires '@' !in date
    ensures BasisOf(Some(date + "@" + BasisText(b))) == Some(b)
  {
    var night := date + "@" + BasisText(b);
    assert night[..|date|] == date && night[|date| + 1..] == BasisText(b);
    FirstIs(night, '@', |date|);
    BasesDiffer(b);
  }

  lemma BasesDiffer(b: Basis)
    ensures b != DateLocNoon ==> BasisText(b) != BasisText(DateLocNoon)
    ensures b == UtcDate ==> BasisText(b) != BasisText(LongitudeNoon)
  {
    assert BasisText(DateLocNoon)[0] == 'd' && BasisText(LongitudeNoon)[0] == 'l' && BasisText(UtcDate)[0] == 'u';
  }

  lemma TypeIsRead(frame: FrameType, text: string)
    ensures FrameText(frame) == "light" ==> frame == Light
    ensures "unclassified:" + text != "light"
  {
    assert ("unclassified:" + text)[0] == 'u';
  }

  /** The date basis of a frame, and whether it is a light, are the key's to
      say: frames of one key agree on both. */
  lemma KeySaysBasisAndLight(c: Canon, m: Metadata)
    requires Usual(c)
    ensures var fields, capture := Decode(CaptureOf(c, m).key), CaptureOf(c, m);
      |fields| == 16 && capture.basis == BasisOf(fields[1].value) && capture.light == (fields[0].value == Some("light"))
  {
    FieldsFromKey(c, m);
    FieldNamesArePlain(c, m);
    var n := Night(m);
    if n.Some? { BasisIsRead(c.dateText(n.value.0), n.value.1); }
    match ImageTypeOf(c, m)
    case Known(frame) => TypeIsRead(frame, "");
    case Unclassified(text) => TypeIsRead(Light, text);
    case BlankType =>
    case AbsentType =>
  }
}
