/** The hard checks one calibration input passes or fails against a light
    session. */
module CalibrationChecks {
  import opened Wrappers
  import opened Sequences

  // ---- Evidence ----

  datatype Field =
    | Width | Height | BinningX | BinningY | Gain | Offset | Exposure | SetTemperature
    | Filter | CameraModel | CameraId | Telescope | FocalLength | ReadoutMode

  /** What headers record, as canonical text, and the confirmed equipment. */
  datatype Evidence = Evidence(values: map<Field, string>, equipment: Option<nat>)

  function Get(e: Evidence, f: Field): Option<string> {
    if f in e.values then Some(e.values[f]) else None
  }

  datatype Kind = Dark | Flat | Bias
  datatype Form = RawSet | Master
  datatype Camera = Known(id: nat) | Ambiguous | Unlinked
  datatype Rotator = HasRotator | NoRotator | RotatorUnknown
  datatype Version = Version(id: nat, validFrom: int, rotator: Rotator)
  datatype Rig = Rig(version: Option<Version>, versions: seq<Version>)

  datatype SessionLight = SessionLight(
    evidence: Evidence, night: Option<int>, camera: Camera, rig: Option<Rig>, rotatorDeg: Option<real>)

  datatype SessionInput = SessionInput(
    id: nat, form: Form, kind: Kind, evidence: Evidence, captured: Option<int>, camera: Camera,
    rigVersion: Option<nat>, rotatorDeg: seq<Option<real>>, available: bool)

  datatype Settings = Settings(fineWithin: real, offeredWithin: real, windowNights: nat, windowDays: nat)

  // ---- Verdicts ----

  datatype Verdict = Compatible | Incompatible | Unknown

  datatype Criterion =
    | ImageTypeCheck | CameraCheck | DimensionsCheck | BinningCheck | GainCheck | OffsetCheck | ExposureCheck
    | SetTemperatureCheck | ChannelCheck | OpticalTrainCheck | RigVersionCheck | RotationCheck | ReadoutModeCheck

  datatype Row = Row(criterion: Criterion, verdict: Verdict, light: Option<string>, input: Option<string>)

  /** Compatible or not only where both texts are there to compare. */
  function VerdictOf(light: Option<string>, input: Option<string>): Verdict {
    if light.None? || input.None? then Unknown
    else if light.value == input.value then Compatible
    else Incompatible
  }

  function Exact(c: Criterion, light: Evidence, input: Evidence, f: Field): Row {
    Row(c, VerdictOf(Get(light, f), Get(input, f)), Get(light, f), Get(input, f))
  }

  function Joined(e: Evidence, first: Field, second: Field, separator: string): Option<string> {
    if first in e.values && second in e.values then Some(e.values[first] + separator + e.values[second]) else None
  }

  function Pair(c: Criterion, light: Evidence, input: Evidence, first: Field, second: Field, separator: string): Row {
    var l, i := Joined(light, first, second, separator), Joined(input, first, second, separator);
    Row(c, VerdictOf(l, i), l, i)
  }

  function CameraShown(e: Evidence): Option<string> {
    if CameraModel !in e.values then None
    else if CameraId in e.values then Some(e.values[CameraModel] + " / " + e.values[CameraId])
    else Some(e.values[CameraModel])
  }

  /** The model on both sides; the camera's own id where both record it. */
  function HeaderCamera(light: Evidence, input: Evidence): Row {
    var model := VerdictOf(Get(light, CameraModel), Get(input, CameraModel));
    var l, i := Get(light, CameraId), Get(input, CameraId);
    var verdict :=
      if !model.Compatible? || (l.None? && i.None?) then model
      else VerdictOf(l, i);
    Row(CameraCheck, verdict, CameraShown(light), CameraShown(input))
  }

  function SessionCamera(light: SessionLight, input: SessionInput): Row {
    var header := HeaderCamera(light.evidence, input.evidence);
    if light.camera.Known? && input.camera.Known? then
      header.(verdict := if light.camera.id == input.camera.id then Compatible else Incompatible, light := None, input := None)
    else if light.camera.Ambiguous? || input.camera.Ambiguous? then
      if header.verdict.Incompatible? then header else header.(verdict := Unknown)
    else header
  }

  function OpticalTrain(light: Evidence, input: Evidence): Row {
    if light.equipment.Some? && input.equipment.Some? then
      Row(OpticalTrainCheck, if light.equipment == input.equipment then Compatible else Incompatible, None, None)
    else Pair(OpticalTrainCheck, light, input, Telescope, FocalLength, " @ ")
  }

  function ReadoutRow(light: Evidence, input: Evidence): Row {
    var row := Exact(ReadoutModeCheck, light, input, ReadoutMode);
    if row.light.None? && row.input.None? then row.(verdict := Compatible) else row
  }

  // ---- The rig's version ----

  /** The latest version starting by `night`, the last listed of equals. */
  function LatestBy(versions: seq<Version>, night: int): (v: Option<Version>)
    ensures v.None? <==> forall k :: 0 <= k < |versions| ==> versions[k].validFrom > night
    ensures v.Some? ==> v.value in versions && v.value.validFrom <= night
    ensures v.Some? ==> forall k :: 0 <= k < |versions| && versions[k].validFrom <= night ==> versions[k].validFrom <= v.value.validFrom
  {
    if versions == [] then None
    else
      var last := versions[|versions| - 1];
      var before := LatestBy(versions[..|versions| - 1], night);
      if last.validFrom <= night && (before.None? || before.value.validFrom <= last.validFrom) then Some(last) else before
  }

  function Earliest(versions: seq<Version>): (v: Option<Version>)
    ensures v.None? <==> versions == []
    ensures v.Some? ==> v.value in versions && forall k :: 0 <= k < |versions| ==> v.value.validFrom <= versions[k].validFrom
  {
    if versions == [] then None
    else
      var last := versions[|versions| - 1];
      var before := Earliest(versions[..|versions| - 1]);
      if before.None? || last.validFrom < before.value.validFrom then Some(last) else before
  }

  /** The version a capture was taken with: the latest starting by its night,
      the first for a night before them all, and for an unknown night the
      only one there is. */
  function VersionForNight(versions: seq<Version>, night: Option<int>): Option<Version> {
    if night.None? then if |versions| == 1 then Some(versions[0]) else None
    else if LatestBy(versions, night.value).Some? then LatestBy(versions, night.value)
    else Earliest(versions)
  }

  ghost predicate OneStartEach(versions: seq<Version>) {
    forall a, b :: a in versions && b in versions && a.validFrom == b.validFrom ==> a == b
  }

  /** Where no two versions start together, the order they are listed in does
      not matter. */
  lemma VersionsInAnyOrder(a: seq<Version>, b: seq<Version>, night: Option<int>)
    requires multiset(a) == multiset(b) && OneStartEach(a)
    ensures VersionForNight(a, night) == VersionForNight(b, night)
  {
    SameMembers(a, b);
    if night.None? {
      if |a| == 1 {
        assert a[0] in b && b == [b[0]];
      }
    } else {
      LatestInAnyOrder(a, b, night.value);
      EarliestInAnyOrder(a, b);
    }
  }

  lemma LatestInAnyOrder(a: seq<Version>, b: seq<Version>, night: int)
    requires |a| == |b| && OneStartEach(a) && forall v :: v in a <==> v in b
    ensures LatestBy(a, night) == LatestBy(b, night)
  {
    var x, y := LatestBy(a, night), LatestBy(b, night);
    if x.Some? { AmongThem(b, x.value); }
    if y.Some? { AmongThem(a, y.value); }
  }

  lemma EarliestInAnyOrder(a: seq<Version>, b: seq<Version>)
    requires |a| == |b| && OneStartEach(a) && forall v :: v in a <==> v in b
    ensures Earliest(a) == Earliest(b)
  {
    var x, y := Earliest(a), Earliest(b);
    if x.Some? { AmongThem(b, x.value); }
    if y.Some? { AmongThem(a, y.value); }
  }

  lemma AmongThem(versions: seq<Version>, v: Version)
    requires v in versions
    ensures exists k :: 0 <= k < |versions| && versions[k] == v
  {
  }

  function FindVersion(versions: seq<Version>, id: nat): (v: Option<Version>)
    ensures v.Some? ==> v.value in versions && v.value.id == id
    ensures v.None? ==> forall k :: 0 <= k < |versions| ==> versions[k].id != id
  {
    if versions == [] then None
    else if versions[0].id == id then Some(versions[0])
    else FindVersion(versions[1..], id)
  }

  function RigVersionVerdict(light: SessionLight, input: SessionInput): Verdict {
    if light.rig.None? then Unknown
    else
      var rig := light.rig.value;
      if input.rigVersion.Some? && FindVersion(rig.versions, input.rigVersion.value).None? then Incompatible
      else
        var flats := if input.rigVersion.Some? then FindVersion(rig.versions, input.rigVersion.value)
                     else VersionForNight(rig.versions, input.captured);
        if rig.version.Some? && flats.Some? then
          if rig.version.value.id == flats.value.id then Compatible else Incompatible
        else if rig.version.None? && flats.None? && rig.versions == [] then Compatible
        else Unknown
  }

  // ---- Rotation ----

  /** `x` without the whole turns in it. */
  function Turned(x: real): (t: real)
    ensures 0.0 <= t < 360.0
  {
    x - 360.0 * ((x / 360.0).Floor as real)
  }

  /** How far apart two rotator angles are, the short way round. */
  function AngleBetween(a: real, b: real): (r: real)
    ensures 0.0 <= r <= 180.0
  {
    var apart := Turned(a - b);
    if apart <= 360.0 - apart then apart else 360.0 - apart
  }

  function Apart(a: real, b: real, turns: int): real {
    var x := a - b + 360.0 * (turns as real);
    if x < 0.0 then -x else x
  }

  /** No number of whole turns brings the two closer, and some number of them
      brings them exactly that close. */
  lemma AngleIsSmallest(a: real, b: real, turns: int)
    ensures AngleBetween(a, b) <= Apart(a, b, turns)
    ensures exists k :: AngleBetween(a, b) == Apart(a, b, k)
  {
    var whole := ((a - b) / 360.0).Floor;
    var apart := Turned(a - b);
    assert a - b + 360.0 * (turns as real) == apart + 360.0 * ((whole + turns) as real);
    assert Apart(a, b, -whole) == apart;
    assert Apart(a, b, -whole - 1) == 360.0 - apart;
  }

  lemma AngleIsSymmetric(a: real, b: real)
    ensures AngleBetween(a, b) == AngleBetween(b, a)
  {
    AngleIsSmallest(a, b, 0);
    AngleIsSmallest(b, a, 0);
    var i :| AngleBetween(a, b) == Apart(a, b, i);
    var j :| AngleBetween(b, a) == Apart(b, a, j);
    AngleIsSmallest(a, b, -j);
    AngleIsSmallest(b, a, -i);
    assert Apart(a, b, -j) == Apart(b, a, j);
    assert Apart(b, a, -i) == Apart(a, b, i);
  }

  function Hundredths(x: real): real {
    ((x * 100.0 + 0.5).Floor as real) / 100.0
  }

  lemma FloorGrows(x: real, y: real)
    requires x <= y
    ensures x.Floor <= y.Floor
  {
  }

  lemma HundredthsGrow(x: real, y: real)
    requires x <= y
    ensures Hundredths(x) <= Hundredths(y)
  {
    var a, b := x * 100.0 + 0.5, y * 100.0 + 0.5;
    FloorGrows(a, b);
    HundredthPart(a.Floor, b.Floor);
  }

  lemma HundredthPart(m: int, n: int)
    requires m <= n
    ensures (m as real) / 100.0 <= (n as real) / 100.0
  {
  }

  function Widest(light: real, angles: seq<real>): (w: real)
    ensures forall k :: 0 <= k < |angles| ==> AngleBetween(light, angles[k]) <= w
    ensures angles == [] ==> w == 0.0
    ensures angles != [] ==> exists k :: 0 <= k < |angles| && w == AngleBetween(light, angles[k])
  {
    if angles == [] then 0.0
    else
      var before := Widest(light, angles[..|angles| - 1]);
      var last := AngleBetween(light, angles[|angles| - 1]);
      if last <= before then before else last
  }

  /** Every frame's angle, where there is a frame and each records one. */
  function AllAngles(angles: seq<Option<real>>): (r: Option<seq<real>>)
    ensures r.Some? <==> angles != [] && forall k :: 0 <= k < |angles| ==> angles[k].Some?
    ensures r.Some? ==> |r.value| == |angles| && forall k :: 0 <= k < |angles| ==> angles[k] == Some(r.value[k])
  {
    if angles == [] || exists k :: 0 <= k < |angles| && angles[k].None? then None
    else Some(seq(|angles|, k requires 0 <= k < |angles| && angles[k].Some? => angles[k].value))
  }

  function NeedsAngle(light: SessionLight): bool {
    !(light.rig.Some? && light.rig.value.version.Some? && light.rig.value.version.value.rotator.NoRotator?)
  }

  function FlatRotation(light: SessionLight, input: SessionInput, s: Settings): (Verdict, Option<real>) {
    var angles := AllAngles(input.rotatorDeg);
    if light.rotatorDeg.Some? && angles.Some? then
      var widest := Hundredths(Widest(light.rotatorDeg.value, angles.value));
      (if widest <= s.fineWithin || widest <= s.offeredWithin then Compatible else Incompatible, Some(widest))
    else (if NeedsAngle(light) then Unknown else Compatible, None)
  }

  /** Flats are turned away for rotation exactly when every angle is known and
      one frame's, rounded, is past what is offered. */
  lemma TurnedAwayByOneFrame(light: SessionLight, input: SessionInput, s: Settings)
    requires s.fineWithin <= s.offeredWithin
    ensures FlatRotation(light, input, s).0.Incompatible? <==>
      && light.rotatorDeg.Some? && AllAngles(input.rotatorDeg).Some?
      && exists k :: 0 <= k < |input.rotatorDeg| && PastOffered(light, input, s, k)
  {
    var angles := AllAngles(input.rotatorDeg);
    if light.rotatorDeg.Some? && angles.Some? {
      var light_ := light.rotatorDeg.value;
      var widest := Widest(light_, angles.value);
      forall k | 0 <= k < |angles.value| ensures Hundredths(AngleBetween(light_, angles.value[k])) <= Hundredths(widest) {
        HundredthsGrow(AngleBetween(light_, angles.value[k]), widest);
      }
      var k :| 0 <= k < |angles.value| && widest == AngleBetween(light_, angles.value[k]);
      assert Hundredths(widest) > s.offeredWithin ==> PastOffered(light, input, s, k);
    }
  }

  predicate PastOffered(light: SessionLight, input: SessionInput, s: Settings, k: nat)
    requires k < |input.rotatorDeg|
  {
    light.rotatorDeg.Some? && input.rotatorDeg[k].Some?
    && Hundredths(AngleBetween(light.rotatorDeg.value, input.rotatorDeg[k].value)) > s.offeredWithin
  }

  // ---- All of them ----

  function CommonChecks(kind: Kind, light: SessionLight, input: SessionInput): seq<Row> {
    [Row(ImageTypeCheck, if input.kind == kind then Compatible else Incompatible, None, None),
     SessionCamera(light, input),
     Pair(DimensionsCheck, light.evidence, input.evidence, Width, Height, "x"),
     Pair(BinningCheck, light.evidence, input.evidence, BinningX, BinningY, "x")]
  }

  function FlatChecks(light: SessionLight, input: SessionInput, s: Settings): seq<Row> {
    [Exact(ChannelCheck, light.evidence, input.evidence, Filter),
     OpticalTrain(light.evidence, input.evidence),
     Row(RigVersionCheck, RigVersionVerdict(light, input), None, None),
     Row(RotationCheck, FlatRotation(light, input, s).0, None, None)]
  }

  function ExposureRow(light: SessionLight, input: SessionInput): Row {
    Exact(ExposureCheck, light.evidence, input.evidence, Exposure)
  }

  function DarkBiasChecks(kind: Kind, light: SessionLight, input: SessionInput): seq<Row> {
    [Exact(GainCheck, light.evidence, input.evidence, Gain),
     Exact(OffsetCheck, light.evidence, input.evidence, Offset)]
    + (if kind.Dark? then [ExposureRow(light, input)] else [])
    + [Exact(SetTemperatureCheck, light.evidence, input.evidence, SetTemperature),
       ReadoutRow(light.evidence, input.evidence)]
  }

  function HardChecks(kind: Kind, light: SessionLight, input: SessionInput, s: Settings): seq<Row> {
    CommonChecks(kind, light, input) + if kind.Flat? then FlatChecks(light, input, s) else DarkBiasChecks(kind, light, input)
  }

  function RotationOf(kind: Kind, light: SessionLight, input: SessionInput, s: Settings): Option<real> {
    if kind.Flat? then FlatRotation(light, input, s).1 else None
  }

  predicate AnyIncompatible(rows: seq<Row>) {
    exists k :: 0 <= k < |rows| && rows[k].verdict.Incompatible?
  }

  /** Passes every hard check: no verdict is incompatible. */
  predicate Offered(kind: Kind, light: SessionLight, input: SessionInput, s: Settings) {
    input.kind == kind && !AnyIncompatible(HardChecks(kind, light, input, s))
  }
}
