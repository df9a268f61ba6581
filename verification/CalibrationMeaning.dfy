/** What the hard checks come to, read off the evidence itself: when an input is
    turned away, and when every check is compatible. */
module CalibrationMeaning {
  import opened Wrappers
  import opened CalibrationChecks

  // ---- The evidence compared ----

  predicate Agree(l: Evidence, i: Evidence, f: Field) {
    f in l.values && f in i.values && l.values[f] == i.values[f]
  }

  predicate Clash(l: Evidence, i: Evidence, f: Field) {
    f in l.values && f in i.values && l.values[f] != i.values[f]
  }

  predicate BothHave(l: Evidence, i: Evidence, a: Field, b: Field) {
    a in l.values && b in l.values && a in i.values && b in i.values
  }

  predicate PairAgree(l: Evidence, i: Evidence, a: Field, b: Field, separator: string) {
    BothHave(l, i, a, b) && l.values[a] + separator + l.values[b] == i.values[a] + separator + i.values[b]
  }

  predicate PairClash(l: Evidence, i: Evidence, a: Field, b: Field, separator: string) {
    BothHave(l, i, a, b) && l.values[a] + separator + l.values[b] != i.values[a] + separator + i.values[b]
  }

  /** Two cameras known by their links agree when they are one; else the headers
      decide, the model first and then the camera's own id. */
  predicate CameraClash(light: SessionLight, input: SessionInput) {
    var l, i := light.evidence, input.evidence;
    if light.camera.Known? && input.camera.Known? then light.camera.id != input.camera.id
    else Clash(l, i, CameraModel) || (Agree(l, i, CameraModel) && Clash(l, i, CameraId))
  }

  predicate CameraAgree(light: SessionLight, input: SessionInput) {
    var l, i := light.evidence, input.evidence;
    if light.camera.Known? && input.camera.Known? then light.camera.id == input.camera.id
    else
      && !light.camera.Ambiguous? && !input.camera.Ambiguous?
      && Agree(l, i, CameraModel)
      && ((CameraId !in l.values && CameraId !in i.values) || Agree(l, i, CameraId))
  }

  predicate TrainClash(l: Evidence, i: Evidence) {
    if l.equipment.Some? && i.equipment.Some? then l.equipment != i.equipment
    else PairClash(l, i, Telescope, FocalLength, " @ ")
  }

  predicate TrainAgree(l: Evidence, i: Evidence) {
    if l.equipment.Some? && i.equipment.Some? then l.equipment == i.equipment
    else PairAgree(l, i, Telescope, FocalLength, " @ ")
  }

  // ---- One row ----

  lemma ExactSays(c: Criterion, l: Evidence, i: Evidence, f: Field)
    ensures Exact(c, l, i, f).verdict.Incompatible? <==> Clash(l, i, f)
    ensures Exact(c, l, i, f).verdict.Compatible? <==> Agree(l, i, f)
  {
  }

  lemma PairSays(c: Criterion, l: Evidence, i: Evidence, a: Field, b: Field, separator: string)
    ensures Pair(c, l, i, a, b, separator).verdict.Incompatible? <==> PairClash(l, i, a, b, separator)
    ensures Pair(c, l, i, a, b, separator).verdict.Compatible? <==> PairAgree(l, i, a, b, separator)
  {
    var x, y := Joined(l, a, b, separator), Joined(i, a, b, separator);
    VerdictSays(x, y);
    assert x.Some? && y.Some? <==> BothHave(l, i, a, b);
  }

  lemma VerdictSays(x: Option<string>, y: Option<string>)
    ensures VerdictOf(x, y).Incompatible? <==> x.Some? && y.Some? && x.value != y.value
    ensures VerdictOf(x, y).Compatible? <==> x.Some? && y.Some? && x.value == y.value
  {
  }

  lemma CameraSays(light: SessionLight, input: SessionInput)
    ensures SessionCamera(light, input).verdict.Incompatible? <==> CameraClash(light, input)
    ensures SessionCamera(light, input).verdict.Compatible? <==> CameraAgree(light, input)
  {
  }

  /** A camera is shown by its model, and its own id where there is one. */
  predicate IsShown(e: Evidence, shown: Option<string>) {
    if CameraModel !in e.values then shown.None?
    else if CameraId !in e.values then shown == Some(e.values[CameraModel])
    else shown.Some? && shown.value == e.values[CameraModel] + " / " + e.values[CameraId]
  }

  lemma ShownSays(light: SessionLight, input: SessionInput)
    requires !light.camera.Known? || !input.camera.Known?
    ensures var row := SessionCamera(light, input); IsShown(light.evidence, row.light) && IsShown(input.evidence, row.input)
  {
    HeaderShows(light.evidence, input.evidence);
  }

  lemma HeaderShows(l: Evidence, i: Evidence)
    ensures IsShown(l, HeaderCamera(l, i).light) && IsShown(i, HeaderCamera(l, i).input)
  {
    IsShownSo(l);
    IsShownSo(i);
  }

  lemma IsShownSo(e: Evidence)
    ensures IsShown(e, CameraShown(e))
  {
  }

  lemma TrainSays(l: Evidence, i: Evidence)
    ensures OpticalTrain(l, i).verdict.Incompatible? <==> TrainClash(l, i)
    ensures OpticalTrain(l, i).verdict.Compatible? <==> TrainAgree(l, i)
  {
  }

  /** No readout mode on either side is the same mode. */
  lemma ReadoutSays(l: Evidence, i: Evidence)
    ensures ReadoutRow(l, i).verdict.Incompatible? <==> Clash(l, i, ReadoutMode)
    ensures ReadoutRow(l, i).verdict.Compatible? <==> Agree(l, i, ReadoutMode) || (ReadoutMode !in l.values && ReadoutMode !in i.values)
  {
  }

  // ---- The rig's version ----

  /** `v` is listed and started by the night, none later did, and of those that
      started with it none is listed after it; or the night comes before all
      and none started before `v`, nor with it but listed earlier; or the
      night is unknown and there is no other. */
  ghost predicate TakenWith(versions: seq<Version>, night: Option<int>, v: Version) {
    if night.None? then versions == [v]
    else if exists k :: 0 <= k < |versions| && versions[k].validFrom <= night.value then
      exists k :: 0 <= k < |versions| && versions[k] == v && LastStarted(versions, night.value, k)
    else
      exists k :: 0 <= k < |versions| && versions[k] == v && FirstOfAll(versions, k)
  }

  ghost predicate LastStarted(versions: seq<Version>, night: int, k: nat)
    requires k < |versions|
  {
    && versions[k].validFrom <= night
    && forall j :: 0 <= j < |versions| && versions[j].validFrom <= night ==>
         versions[j].validFrom < versions[k].validFrom || (versions[j].validFrom == versions[k].validFrom && j <= k)
  }

  ghost predicate FirstOfAll(versions: seq<Version>, k: nat)
    requires k < |versions|
  {
    forall j :: 0 <= j < |versions| ==>
      versions[k].validFrom < versions[j].validFrom || (versions[k].validFrom == versions[j].validFrom && k <= j)
  }

  lemma {:induction false} LatestSays(versions: seq<Version>, night: int) returns (k: nat)
    requires LatestBy(versions, night).Some?
    ensures k < |versions| && versions[k] == LatestBy(versions, night).value && LastStarted(versions, night, k)
  {
    var n := |versions| - 1;
    var last, before := versions[n], LatestBy(versions[..n], night);
    if last.validFrom <= night && (before.None? || before.value.validFrom <= last.validFrom) {
      k := n;
      forall j | 0 <= j < n && versions[j].validFrom <= night ensures versions[j].validFrom <= last.validFrom {
        assert versions[..n][j] == versions[j];
      }
    } else {
      k := LatestSays(versions[..n], night);
      forall j | 0 <= j < n ensures versions[..n][j] == versions[j] {}
    }
  }

  lemma {:induction false} EarliestSays(versions: seq<Version>) returns (k: nat)
    requires versions != []
    ensures k < |versions| && Earliest(versions) == Some(versions[k]) && FirstOfAll(versions, k)
  {
    var n := |versions| - 1;
    var last, before := versions[n], Earliest(versions[..n]);
    if before.None? || last.validFrom < before.value.validFrom {
      k := n;
      forall j | 0 <= j < n ensures last.validFrom < versions[j].validFrom {
        assert versions[..n][j] == versions[j];
      }
    } else {
      k := EarliestSays(versions[..n]);
      forall j | 0 <= j < n ensures versions[..n][j] == versions[j] {}
    }
  }

  /** The version found is the one a capture of that night was taken with, and
      none is found only where none is listed, or where the night is unknown
      and there are several. */
  lemma VersionSays(versions: seq<Version>, night: Option<int>)
    ensures VersionForNight(versions, night).None? <==> versions == [] || (night.None? && |versions| > 1)
    ensures VersionForNight(versions, night).Some? ==> TakenWith(versions, night, VersionForNight(versions, night).value)
  {
    if night.Some? {
      if LatestBy(versions, night.value).Some? {
        var k := LatestSays(versions, night.value);
      } else if versions != [] {
        var k := EarliestSays(versions);
      }
    }
  }

  /** The version flats were taken with: the one they name, or the one of their
      night. */
  function FlatsVersion(rig: Rig, input: SessionInput): Option<Version> {
    if input.rigVersion.Some? then FindVersion(rig.versions, input.rigVersion.value)
    else VersionForNight(rig.versions, input.captured)
  }

  predicate VersionClash(light: SessionLight, input: SessionInput) {
    light.rig.Some? &&
    var rig, flats := light.rig.value, FlatsVersion(light.rig.value, input);
    || (input.rigVersion.Some? && forall k :: 0 <= k < |rig.versions| ==> rig.versions[k].id != input.rigVersion.value)
    || (rig.version.Some? && flats.Some? && rig.version.value.id != flats.value.id)
  }

  predicate VersionAgree(light: SessionLight, input: SessionInput) {
    light.rig.Some? &&
    var rig, flats := light.rig.value, FlatsVersion(light.rig.value, input);
    if rig.versions == [] then rig.version.None? && input.rigVersion.None?
    else rig.version.Some? && flats.Some? && rig.version.value.id == flats.value.id
  }

  lemma RigSays(light: SessionLight, input: SessionInput)
    ensures RigVersionVerdict(light, input).Incompatible? <==> VersionClash(light, input)
    ensures RigVersionVerdict(light, input).Compatible? <==> VersionAgree(light, input)
  {
    if light.rig.Some? && light.rig.value.versions == [] {
      VersionSays([], input.captured);
    }
  }

  // ---- Rotation ----

  predicate AllKnown(light: SessionLight, input: SessionInput) {
    light.rotatorDeg.Some? && input.rotatorDeg != [] && forall k :: 0 <= k < |input.rotatorDeg| ==> input.rotatorDeg[k].Some?
  }

  predicate NoRotatorAtAll(light: SessionLight) {
    light.rig.Some? && light.rig.value.version.Some? && light.rig.value.version.value.rotator.NoRotator?
  }

  /** Angles decide where all are known; where some are not, only a rig without
      a rotator needs none. */
  lemma RotationSays(light: SessionLight, input: SessionInput, s: Settings)
    requires s.fineWithin <= s.offeredWithin
    ensures FlatRotation(light, input, s).0.Incompatible? <==>
      AllKnown(light, input) && exists k :: 0 <= k < |input.rotatorDeg| && PastOffered(light, input, s, k)
    ensures FlatRotation(light, input, s).0.Compatible? <==>
      if AllKnown(light, input) then forall k :: 0 <= k < |input.rotatorDeg| ==> !PastOffered(light, input, s, k)
      else NoRotatorAtAll(light)
  {
    TurnedAwayByOneFrame(light, input, s);
  }

  // ---- All the checks ----

  lemma AnyAdds(a: seq<Row>, b: seq<Row>)
    ensures AnyIncompatible(a + b) <==> AnyIncompatible(a) || AnyIncompatible(b)
  {
    if k :| 0 <= k < |a| && a[k].verdict.Incompatible? { assert (a + b)[k] == a[k]; }
    if k :| 0 <= k < |b| && b[k].verdict.Incompatible? { assert (a + b)[|a| + k] == b[k]; }
  }

  predicate AllCompatible(rows: seq<Row>) {
    forall k :: 0 <= k < |rows| ==> rows[k].verdict.Compatible?
  }

  lemma AllAdds(a: seq<Row>, b: seq<Row>)
    ensures AllCompatible(a + b) <==> AllCompatible(a) && AllCompatible(b)
  {
    if AllCompatible(a + b) {
      forall k | 0 <= k < |a| ensures a[k].verdict.Compatible? { assert (a + b)[k] == a[k]; }
      forall k | 0 <= k < |b| ensures b[k].verdict.Compatible? { assert (a + b)[|a| + k] == b[k]; }
    }
  }

  predicate CommonClash(light: SessionLight, input: SessionInput) {
    var l, i := light.evidence, input.evidence;
    CameraClash(light, input) || PairClash(l, i, Width, Height, "x") || PairClash(l, i, BinningX, BinningY, "x")
  }

  predicate CommonAgree(light: SessionLight, input: SessionInput) {
    var l, i := light.evidence, input.evidence;
    CameraAgree(light, input) && PairAgree(l, i, Width, Height, "x") && PairAgree(l, i, BinningX, BinningY, "x")
  }

  lemma CommonSays(kind: Kind, light: SessionLight, input: SessionInput)
    ensures AnyIncompatible(CommonChecks(kind, light, input)) <==> input.kind != kind || CommonClash(light, input)
    ensures AllCompatible(CommonChecks(kind, light, input)) <==> input.kind == kind && CommonAgree(light, input)
  {
    var rows := CommonChecks(kind, light, input);
    CameraSays(light, input);
    PairSays(DimensionsCheck, light.evidence, input.evidence, Width, Height, "x");
    PairSays(BinningCheck, light.evidence, input.evidence, BinningX, BinningY, "x");
    assert |rows| == 4;
    assert AnyIncompatible(rows) <==>
      rows[0].verdict.Incompatible? || rows[1].verdict.Incompatible? || rows[2].verdict.Incompatible? || rows[3].verdict.Incompatible?;
  }

  lemma FlatSays(light: SessionLight, input: SessionInput, s: Settings)
    requires s.fineWithin <= s.offeredWithin
    ensures AnyIncompatible(FlatChecks(light, input, s)) <==>
      || Clash(light.evidence, input.evidence, Filter) || TrainClash(light.evidence, input.evidence)
      || VersionClash(light, input) || FlatRotation(light, input, s).0.Incompatible?
    ensures AllCompatible(FlatChecks(light, input, s)) <==>
      && Agree(light.evidence, input.evidence, Filter) && TrainAgree(light.evidence, input.evidence)
      && VersionAgree(light, input) && FlatRotation(light, input, s).0.Compatible?
  {
    var rows := FlatChecks(light, input, s);
    ExactSays(ChannelCheck, light.evidence, input.evidence, Filter);
    TrainSays(light.evidence, input.evidence);
    RigSays(light, input);
    assert |rows| == 4;
    assert AnyIncompatible(rows) <==>
      rows[0].verdict.Incompatible? || rows[1].verdict.Incompatible? || rows[2].verdict.Incompatible? || rows[3].verdict.Incompatible?;
  }

  lemma DarkBiasSays(kind: Kind, light: SessionLight, input: SessionInput)
    ensures var l, i := light.evidence, input.evidence;
      && (AnyIncompatible(DarkBiasChecks(kind, light, input)) <==>
            || Clash(l, i, Gain) || Clash(l, i, Offset) || (kind.Dark? && Clash(l, i, Exposure))
            || Clash(l, i, SetTemperature) || Clash(l, i, ReadoutMode))
      && (AllCompatible(DarkBiasChecks(kind, light, input)) <==>
            && Agree(l, i, Gain) && Agree(l, i, Offset) && (kind.Dark? ==> Agree(l, i, Exposure))
            && Agree(l, i, SetTemperature)
            && (Agree(l, i, ReadoutMode) || (ReadoutMode !in l.values && ReadoutMode !in i.values)))
  {
    var l, i := light.evidence, input.evidence;
    var first := [Exact(GainCheck, l, i, Gain), Exact(OffsetCheck, l, i, Offset)];
    var middle := if kind.Dark? then [ExposureRow(light, input)] else [];
    var last := [Exact(SetTemperatureCheck, l, i, SetTemperature), ReadoutRow(l, i)];
    ExactSays(GainCheck, l, i, Gain);
    ExactSays(OffsetCheck, l, i, Offset);
    ExactSays(ExposureCheck, l, i, Exposure);
    ExactSays(SetTemperatureCheck, l, i, SetTemperature);
    ReadoutSays(l, i);
    TwoSay(first);
    OneSays(middle);
    TwoSay(last);
    AnyAdds(first, middle);
    AnyAdds(first + middle, last);
    AllAdds(first, middle);
    AllAdds(first + middle, last);
  }

  lemma TwoSay(rows: seq<Row>)
    requires |rows| == 2
    ensures AnyIncompatible(rows) <==> rows[0].verdict.Incompatible? || rows[1].verdict.Incompatible?
    ensures AllCompatible(rows) <==> rows[0].verdict.Compatible? && rows[1].verdict.Compatible?
  {
  }

  lemma OneSays(rows: seq<Row>)
    requires |rows| <= 1
    ensures AnyIncompatible(rows) <==> rows != [] && rows[0].verdict.Incompatible?
    ensures AllCompatible(rows) <==> rows == [] || rows[0].verdict.Compatible?
  {
  }

  /** When an input is turned away for good: it is of another kind, or some
      part of the evidence both sides have is not the same, of those that
      matter for its kind. */
  lemma OfferedMeans(kind: Kind, light: SessionLight, input: SessionInput, s: Settings)
    requires s.fineWithin <= s.offeredWithin
    ensures var l, i := light.evidence, input.evidence;
      Offered(kind, light, input, s) <==>
        && input.kind == kind && !CommonClash(light, input)
        && if kind.Flat? then
             && !Clash(l, i, Filter) && !TrainClash(l, i) && !VersionClash(light, input)
             && !(AllKnown(light, input) && exists k :: 0 <= k < |input.rotatorDeg| && PastOffered(light, input, s, k))
           else
             && !Clash(l, i, Gain) && !Clash(l, i, Offset) && !(kind.Dark? && Clash(l, i, Exposure))
             && !Clash(l, i, SetTemperature) && !Clash(l, i, ReadoutMode)
  {
    CommonSays(kind, light, input);
    AnyAdds(CommonChecks(kind, light, input), if kind.Flat? then FlatChecks(light, input, s) else DarkBiasChecks(kind, light, input));
    if kind.Flat? {
      FlatSays(light, input, s);
      RotationSays(light, input, s);
    } else {
      DarkBiasSays(kind, light, input);
    }
  }

  /** When nothing at all is left open: every part that matters is there on
      both sides and the same. */
  lemma CompatibleMeans(kind: Kind, light: SessionLight, input: SessionInput, s: Settings)
    requires s.fineWithin <= s.offeredWithin
    ensures var l, i := light.evidence, input.evidence;
      AllCompatible(HardChecks(kind, light, input, s)) <==>
        && input.kind == kind && CommonAgree(light, input)
        && if kind.Flat? then
             && Agree(l, i, Filter) && TrainAgree(l, i) && VersionAgree(light, input)
             && if AllKnown(light, input) then forall k :: 0 <= k < |input.rotatorDeg| ==> !PastOffered(light, input, s, k)
                else NoRotatorAtAll(light)
           else
             && Agree(l, i, Gain) && Agree(l, i, Offset) && (kind.Dark? ==> Agree(l, i, Exposure))
             && Agree(l, i, SetTemperature)
             && (Agree(l, i, ReadoutMode) || (ReadoutMode !in l.values && ReadoutMode !in i.values))
  {
    CommonSays(kind, light, input);
    AllAdds(CommonChecks(kind, light, input), if kind.Flat? then FlatChecks(light, input, s) else DarkBiasChecks(kind, light, input));
    if kind.Flat? {
      FlatSays(light, input, s);
      RotationSays(light, input, s);
    } else {
      DarkBiasSays(kind, light, input);
    }
  }

  /** Each check says which it is, in the order a list shows them. */
  lemma ChecksListed(kind: Kind, light: SessionLight, input: SessionInput, s: Settings, k: nat)
    requires k < |HardChecks(kind, light, input, s)|
    ensures var listed :=
        [ImageTypeCheck, CameraCheck, DimensionsCheck, BinningCheck] +
        if kind.Flat? then [ChannelCheck, OpticalTrainCheck, RigVersionCheck, RotationCheck]
        else if kind.Dark? then [GainCheck, OffsetCheck, ExposureCheck, SetTemperatureCheck, ReadoutModeCheck]
        else [GainCheck, OffsetCheck, SetTemperatureCheck, ReadoutModeCheck];
      |listed| == |HardChecks(kind, light, input, s)| && HardChecks(kind, light, input, s)[k].criterion == listed[k]
  {
  }
}
