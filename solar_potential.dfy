/** The records of solar_api_mock/core/properties/solar_potential.py: roof and
    roof-segment statistics, single panels, panel layouts, and the solar
    potential of a building that gathers them together with its financial
    analyses. The documented relations between the lists (sums, order, index
    ranges) are stated as predicates: construction does not check them. */
module Solar {
  import opened Wrappers
  import opened Json
  import opened Common
  import opened Financial

  // ---- orientation ------------------------------------------------------------------

  datatype Orientation = OrientationUnspecified | Landscape | Portrait

  function OrientationName(o: Orientation): string {
    match o
    case OrientationUnspecified => "SOLAR_PANEL_ORIENTATION_UNSPECIFIED"
    case Landscape => "LANDSCAPE"
    case Portrait => "PORTRAIT"
  }

  const OrientationNames: set<string> := {"SOLAR_PANEL_ORIENTATION_UNSPECIFIED", "LANDSCAPE", "PORTRAIT"}

  /** The `Literal[...]` check of `SolarPanel.orientation`. */
  function ParseOrientation(v: Value): (r: Parsed<Orientation>)
    ensures r.Ok? <==> v.Str? && v.s in OrientationNames
    ensures r.Ok? ==> v == Str(OrientationName(r.value))
  {
    if !v.Str? then Fail(LiteralError)
    else if v.s == "SOLAR_PANEL_ORIENTATION_UNSPECIFIED" then Ok(OrientationUnspecified)
    else if v.s == "LANDSCAPE" then Ok(Landscape)
    else if v.s == "PORTRAIT" then Ok(Portrait)
    else Fail(LiteralError)
  }

  lemma OrientationRoundTrip(o: Orientation)
    ensures ParseOrientation(Str(OrientationName(o))) == Ok(o)
  {
  }

  // ---- SizeAndSunshineStats ----------------------------------------------------------

  datatype SizeAndSunshineStats = SizeAndSunshineStats(
    areaMeters2: real,
    sunshineQuantiles: seq<real>,
    groundAreaMeters2: real)
  {
    /** Documented, not checked: N values are the (N-1)-iles, listed from the minimum to the maximum. */
    predicate QuantilesOrdered() {
      |sunshineQuantiles| >= 2
      && forall i, j :: 0 <= i < j < |sunshineQuantiles| ==> sunshineQuantiles[i] <= sunshineQuantiles[j]
    }
  }

  /** The fields of `SizeAndSunshineStats` that have no default. */
  const StatsFields: set<Key> := {Key.areaMeters2, Key.sunshineQuantiles, Key.groundAreaMeters2}

  /** Construction of a `SizeAndSunshineStats` from keyword arguments: every declared field in
      declaration order, the first failure reported at its field. */
  function ParseStats(v: Value): (r: Parsed<SizeAndSunshineStats>)
    ensures !v.Obj? ==> r == Err(ValidationError([], ModelType))
  {
    if !v.Obj? then Fail(ModelType)
    else
      var m := v.fields;
      var areaMeters2 :- Required(m, Key.areaMeters2, AsFloat);
      var sunshineQuantiles :- Required(m, Key.sunshineQuantiles, AsFloats);
      var groundAreaMeters2 :- Required(m, Key.groundAreaMeters2, AsFloat);
      Ok(SizeAndSunshineStats(areaMeters2, sunshineQuantiles, groundAreaMeters2))
  }

  /** The keyword arguments `m` construct exactly `x`: each field without a default is
      present and reads as `x`'s value,
      and any other key is ignored. */
  predicate StatsAccepts(m: map<Key, Value>, x: SizeAndSunshineStats) {
    Key.areaMeters2 in m && AsFloat(m[Key.areaMeters2]) == Ok(x.areaMeters2)
    && Key.sunshineQuantiles in m && AsFloats(m[Key.sunshineQuantiles]) == Ok(x.sunshineQuantiles)
    && Key.groundAreaMeters2 in m && AsFloat(m[Key.groundAreaMeters2]) == Ok(x.groundAreaMeters2)
  }

  lemma StatsFromAccepted(m: map<Key, Value>, x: SizeAndSunshineStats)
    requires StatsAccepts(m, x)
    ensures ParseStats(Obj(m)) == Ok(x)
  {
  }

  lemma StatsAcceptedFrom(v: Value)
    requires ParseStats(v).Ok?
    ensures v.Obj? && StatsAccepts(v.fields, ParseStats(v).value)
  {
  }

  /** The object of already-serialised field values. */
  function StatsObject(areaMeters2: Value, sunshineQuantiles: Value, groundAreaMeters2: Value): map<Key, Value> {
    map[Key.areaMeters2 := areaMeters2, Key.sunshineQuantiles := sunshineQuantiles, Key.groundAreaMeters2 := groundAreaMeters2]
  }

  lemma StatsObjectFields(areaMeters2: Value, sunshineQuantiles: Value, groundAreaMeters2: Value)
    ensures var m := StatsObject(areaMeters2, sunshineQuantiles, groundAreaMeters2);
      Key.areaMeters2 in m && m[Key.areaMeters2] == areaMeters2
      && Key.sunshineQuantiles in m && m[Key.sunshineQuantiles] == sunshineQuantiles
      && Key.groundAreaMeters2 in m && m[Key.groundAreaMeters2] == groundAreaMeters2
  {
  }

  lemma StatsObjectKeys(areaMeters2: Value, sunshineQuantiles: Value, groundAreaMeters2: Value)
    ensures StatsObject(areaMeters2, sunshineQuantiles, groundAreaMeters2).Keys == StatsFields
  {
  }

  lemma StatsObjectNoNulls(areaMeters2: Value, sunshineQuantiles: Value, groundAreaMeters2: Value)
    requires NoNulls(areaMeters2) && NoNulls(sunshineQuantiles) && NoNulls(groundAreaMeters2)
    ensures NoNulls(Obj(StatsObject(areaMeters2, sunshineQuantiles, groundAreaMeters2)))
  {
    var m0: map<Key, Value> := map[];
    NoNullsPut(m0, Key.areaMeters2, areaMeters2);
    var m1 := m0[Key.areaMeters2 := areaMeters2];
    NoNullsPut(m1, Key.sunshineQuantiles, sunshineQuantiles);
    var m2 := m1[Key.sunshineQuantiles := sunshineQuantiles];
    NoNullsPut(m2, Key.groundAreaMeters2, groundAreaMeters2);
    var m3 := m2[Key.groundAreaMeters2 := groundAreaMeters2];
  }

  /** An object whose serialised field values read back as `x`'s fields constructs `x`. */
  lemma StatsFromObject(x: SizeAndSunshineStats, areaMeters2: Value, sunshineQuantiles: Value, groundAreaMeters2: Value)
    requires AsFloat(areaMeters2) == Ok(x.areaMeters2)
      && AsFloats(sunshineQuantiles) == Ok(x.sunshineQuantiles)
      && AsFloat(groundAreaMeters2) == Ok(x.groundAreaMeters2)
    ensures ParseStats(Obj(StatsObject(areaMeters2, sunshineQuantiles, groundAreaMeters2))) == Ok(x)
  {
    StatsObjectFields(areaMeters2, sunshineQuantiles, groundAreaMeters2);
    StatsFromAccepted(StatsObject(areaMeters2, sunshineQuantiles, groundAreaMeters2), x);
  }

  /** Serialisation of a `SizeAndSunshineStats`. */
  function DumpStats(x: SizeAndSunshineStats): (r: Value)
    ensures r.Obj?
  {
    Obj(StatsObject(Num(x.areaMeters2), Floats(x.sunshineQuantiles), Num(x.groundAreaMeters2)))
  }

  /** The serialised object has exactly the declared keys. */
  lemma DumpStatsKeys(x: SizeAndSunshineStats)
    ensures DumpStats(x).fields.Keys == StatsFields
  {
    StatsObjectKeys(Num(x.areaMeters2), Floats(x.sunshineQuantiles), Num(x.groundAreaMeters2));
  }

  /** With unset fields dropped, no `null` appears anywhere in the serialised tree. */
  lemma DumpStatsNoNulls(x: SizeAndSunshineStats)
    ensures NoNulls(DumpStats(x))
  {
    StatsObjectNoNulls(Num(x.areaMeters2), Floats(x.sunshineQuantiles), Num(x.groundAreaMeters2));
  }

  /** Serialising with unset fields dropped and constructing again gives back the same record. */
  lemma StatsRoundTrip(x: SizeAndSunshineStats)
    ensures ParseStats(DumpStats(x)) == Ok(x)
  {
    FloatsRoundTrip(x.sunshineQuantiles);
    StatsFromObject(x, Num(x.areaMeters2), Floats(x.sunshineQuantiles), Num(x.groundAreaMeters2));
  }

  /** The fraction of the area at or below the i-th of n quantile values. */
  function QuantileLevel(n: nat, i: nat): (q: real)
    requires 2 <= n && i < n
    ensures 0.0 <= q <= 1.0
    ensures i == 0 <==> q == 0.0
    ensures i == n - 1 <==> q == 1.0
  {
    var d := (n - 1) as real;
    var q := i as real / d;
    assert q * d == i as real;
    assert i as real <= d;
    assert q == 1.0 ==> i == n - 1;
    q
  }

  /** Five values are the quartiles: minimum, 25%, median, 75%, maximum. */
  lemma FiveQuantilesAreQuartiles()
    ensures QuantileLevel(5, 1) == 0.25 && QuantileLevel(5, 2) == 0.5 && QuantileLevel(5, 3) == 0.75
  {
  }

  /** For ordered quantiles the first is the smallest value and the last the largest. */
  lemma QuantileExtremes(s: SizeAndSunshineStats, i: nat)
    requires s.QuantilesOrdered() && i < |s.sunshineQuantiles|
    ensures s.sunshineQuantiles[0] <= s.sunshineQuantiles[i] <= s.sunshineQuantiles[|s.sunshineQuantiles| - 1]
  {
  }

  // ---- RoofSegmentSummary --------------------------------------------------------------

  datatype RoofSegmentSummary = RoofSegmentSummary(
    yearlyEnergyDcKwh: real,
    segmentIndex: int,
    panelsCount: int,
    azimuthDegrees: real,
    pitchDegrees: real)

  /** The fields of `RoofSegmentSummary` that have no default. */
  const SummaryFields: set<Key> := {Key.yearlyEnergyDcKwh, Key.segmentIndex, Key.panelsCount, Key.azimuthDegrees, Key.pitchDegrees}

  /** Construction of a `RoofSegmentSummary` from keyword arguments: every declared field in
      declaration order, the first failure reported at its field. */
  function ParseSummary(v: Value): (r: Parsed<RoofSegmentSummary>)
    ensures !v.Obj? ==> r == Err(ValidationError([], ModelType))
  {
    if !v.Obj? then Fail(ModelType)
    else
      var m := v.fields;
      var yearlyEnergyDcKwh :- Required(m, Key.yearlyEnergyDcKwh, AsFloat);
      var segmentIndex :- Required(m, Key.segmentIndex, AsInt);
      var panelsCount :- Required(m, Key.panelsCount, AsInt);
      var azimuthDegrees :- Required(m, Key.azimuthDegrees, AsFloat);
      var pitchDegrees :- Required(m, Key.pitchDegrees, AsFloat);
      Ok(RoofSegmentSummary(yearlyEnergyDcKwh, segmentIndex, panelsCount, azimuthDegrees, pitchDegrees))
  }

  /** The keyword arguments `m` construct exactly `x`: each field without a default is
      present and reads as `x`'s value,
      and any other key is ignored. */
  predicate SummaryAccepts(m: map<Key, Value>, x: RoofSegmentSummary) {
    Key.yearlyEnergyDcKwh in m && AsFloat(m[Key.yearlyEnergyDcKwh]) == Ok(x.yearlyEnergyDcKwh)
    && Key.segmentIndex in m && AsInt(m[Key.segmentIndex]) == Ok(x.segmentIndex)
    && Key.panelsCount in m && AsInt(m[Key.panelsCount]) == Ok(x.panelsCount)
    && Key.azimuthDegrees in m && AsFloat(m[Key.azimuthDegrees]) == Ok(x.azimuthDegrees)
    && Key.pitchDegrees in m && AsFloat(m[Key.pitchDegrees]) == Ok(x.pitchDegrees)
  }

  lemma SummaryFromAccepted(m: map<Key, Value>, x: RoofSegmentSummary)
    requires SummaryAccepts(m, x)
    ensures ParseSummary(Obj(m)) == Ok(x)
  {
  }

  lemma SummaryAcceptedFrom(v: Value)
    requires ParseSummary(v).Ok?
    ensures v.Obj? && SummaryAccepts(v.fields, ParseSummary(v).value)
  {
  }

  /** The object of already-serialised field values. */
  function SummaryObject(yearlyEnergyDcKwh: Value, segmentIndex: Value, panelsCount: Value, azimuthDegrees: Value, pitchDegrees: Value): map<Key, Value> {
    map[Key.yearlyEnergyDcKwh := yearlyEnergyDcKwh, Key.segmentIndex := segmentIndex, Key.panelsCount := panelsCount, Key.azimuthDegrees := azimuthDegrees, Key.pitchDegrees := pitchDegrees]
  }

  lemma SummaryObjectFields(yearlyEnergyDcKwh: Value, segmentIndex: Value, panelsCount: Value, azimuthDegrees: Value, pitchDegrees: Value)
    ensures var m := SummaryObject(yearlyEnergyDcKwh, segmentIndex, panelsCount, azimuthDegrees, pitchDegrees);
      Key.yearlyEnergyDcKwh in m && m[Key.yearlyEnergyDcKwh] == yearlyEnergyDcKwh
      && Key.segmentIndex in m && m[Key.segmentIndex] == segmentIndex
      && Key.panelsCount in m && m[Key.panelsCount] == panelsCount
      && Key.azimuthDegrees in m && m[Key.azimuthDegrees] == azimuthDegrees
      && Key.pitchDegrees in m && m[Key.pitchDegrees] == pitchDegrees
  {
  }

  lemma SummaryObjectKeys(yearlyEnergyDcKwh: Value, segmentIndex: Value, panelsCount: Value, azimuthDegrees: Value, pitchDegrees: Value)
    ensures SummaryObject(yearlyEnergyDcKwh, segmentIndex, panelsCount, azimuthDegrees, pitchDegrees).Keys == SummaryFields
  {
  }

  lemma SummaryObjectNoNulls(yearlyEnergyDcKwh: Value, segmentIndex: Value, panelsCount: Value, azimuthDegrees: Value, pitchDegrees: Value)
    requires NoNulls(yearlyEnergyDcKwh) && NoNulls(segmentIndex) && NoNulls(panelsCount) && NoNulls(azimuthDegrees) && NoNulls(pitchDegrees)
    ensures NoNulls(Obj(SummaryObject(yearlyEnergyDcKwh, segmentIndex, panelsCount, azimuthDegrees, pitchDegrees)))
  {
    var m0: map<Key, Value> := map[];
    NoNullsPut(m0, Key.yearlyEnergyDcKwh, yearlyEnergyDcKwh);
    var m1 := m0[Key.yearlyEnergyDcKwh := yearlyEnergyDcKwh];
    NoNullsPut(m1, Key.segmentIndex, segmentIndex);
    var m2 := m1[Key.segmentIndex := segmentIndex];
    NoNullsPut(m2, Key.panelsCount, panelsCount);
    var m3 := m2[Key.panelsCount := panelsCount];
    NoNullsPut(m3, Key.azimuthDegrees, azimuthDegrees);
    var m4 := m3[Key.azimuthDegrees := azimuthDegrees];
    NoNullsPut(m4, Key.pitchDegrees, pitchDegrees);
    var m5 := m4[Key.pitchDegrees := pitchDegrees];
  }

  /** An object whose serialised field values read back as `x`'s fields constructs `x`. */
  lemma SummaryFromObject(x: RoofSegmentSummary, yearlyEnergyDcKwh: Value, segmentIndex: Value, panelsCount: Value, azimuthDegrees: Value, pitchDegrees: Value)
    requires AsFloat(yearlyEnergyDcKwh) == Ok(x.yearlyEnergyDcKwh)
      && AsInt(segmentIndex) == Ok(x.segmentIndex)
      && AsInt(panelsCount) == Ok(x.panelsCount)
      && AsFloat(azimuthDegrees) == Ok(x.azimuthDegrees)
      && AsFloat(pitchDegrees) == Ok(x.pitchDegrees)
    ensures ParseSummary(Obj(SummaryObject(yearlyEnergyDcKwh, segmentIndex, panelsCount, azimuthDegrees, pitchDegrees))) == Ok(x)
  {
    SummaryObjectFields(yearlyEnergyDcKwh, segmentIndex, panelsCount, azimuthDegrees, pitchDegrees);
    SummaryFromAccepted(SummaryObject(yearlyEnergyDcKwh, segmentIndex, panelsCount, azimuthDegrees, pitchDegrees), x);
  }

  /** Serialisation of a `RoofSegmentSummary`. */
  function DumpSummary(x: RoofSegmentSummary): (r: Value)
    ensures r.Obj?
  {
    Obj(SummaryObject(Num(x.yearlyEnergyDcKwh), Num(x.segmentIndex as real), Num(x.panelsCount as real), Num(x.azimuthDegrees), Num(x.pitchDegrees)))
  }

  /** The serialised object has exactly the declared keys. */
  lemma DumpSummaryKeys(x: RoofSegmentSummary)
    ensures DumpSummary(x).fields.Keys == SummaryFields
  {
    SummaryObjectKeys(Num(x.yearlyEnergyDcKwh), Num(x.segmentIndex as real), Num(x.panelsCount as real), Num(x.azimuthDegrees), Num(x.pitchDegrees));
  }

  /** With unset fields dropped, no `null` appears anywhere in the serialised tree. */
  lemma DumpSummaryNoNulls(x: RoofSegmentSummary)
    ensures NoNulls(DumpSummary(x))
  {
    SummaryObjectNoNulls(Num(x.yearlyEnergyDcKwh), Num(x.segmentIndex as real), Num(x.panelsCount as real), Num(x.azimuthDegrees), Num(x.pitchDegrees));
  }

  /** Serialising with unset fields dropped and constructing again gives back the same record. */
  lemma SummaryRoundTrip(x: RoofSegmentSummary)
    ensures ParseSummary(DumpSummary(x)) == Ok(x)
  {
    SummaryFromObject(x, Num(x.yearlyEnergyDcKwh), Num(x.segmentIndex as real), Num(x.panelsCount as real), Num(x.azimuthDegrees), Num(x.pitchDegrees));
  }

  /** A list of `RoofSegmentSummary` records. */
  function AsSummaries(v: Value): (r: Parsed<seq<RoofSegmentSummary>>)
    ensures r.Ok? ==> v.Arr? && |r.value| == |v.items|
    ensures r.Ok? ==> forall j :: 0 <= j < |v.items| ==> ParseSummary(v.items[j]) == Ok(r.value[j])
  {
    AsList(v, ParseSummary)
  }

  function DumpSummaries(xs: seq<RoofSegmentSummary>): (r: Value)
    ensures r.Arr? && |r.items| == |xs|
    ensures forall i :: 0 <= i < |xs| ==> r.items[i] == DumpSummary(xs[i])
  {
    Arr(seq(|xs|, i requires 0 <= i < |xs| => DumpSummary(xs[i])))
  }

  lemma SummariesRoundTrip(xs: seq<RoofSegmentSummary>)
    ensures AsSummaries(DumpSummaries(xs)) == Ok(xs)
  {
    forall i | 0 <= i < |xs|
      ensures ParseSummary(DumpSummaries(xs).items[i]) == Ok(xs[i])
    {
      SummaryRoundTrip(xs[i]);
    }
    ListRoundTrip(xs, DumpSummaries(xs).items, ParseSummary);
  }

  lemma SummariesNoNulls(xs: seq<RoofSegmentSummary>)
    ensures NoNulls(DumpSummaries(xs))
  {
    forall i | 0 <= i < |xs|
      ensures NoNulls(DumpSummaries(xs).items[i])
    {
      DumpSummaryNoNulls(xs[i]);
    }
  }

  // ---- RoofSegmentSizeAndSunshineStats ---------------------------------------------------

  datatype RoofSegmentSizeAndSunshineStats = RoofSegmentSizeAndSunshineStats(
    pitchDegrees: real,
    stats: SizeAndSunshineStats,
    center: LatLng,
    azimuthDegrees: real,
    planeHeightAtCenterMeters: real,
    boundingBox: LatLngBox)
  {
    predicate Valid() {
      center.Valid() && boundingBox.Valid()
    }
  }

  /** The fields of `RoofSegmentSizeAndSunshineStats` that have no default. */
  const SegmentStatsFields: set<Key> := {Key.pitchDegrees, Key.stats, Key.center, Key.azimuthDegrees, Key.planeHeightAtCenterMeters, Key.boundingBox}

  /** Construction of a `RoofSegmentSizeAndSunshineStats` from keyword arguments: every declared field in
      declaration order, the first failure reported at its field. */
  function ParseSegmentStats(v: Value): (r: Parsed<RoofSegmentSizeAndSunshineStats>)
    ensures !v.Obj? ==> r == Err(ValidationError([], ModelType))
    ensures r.Ok? ==> r.value.Valid()
  {
    if !v.Obj? then Fail(ModelType)
    else
      var m := v.fields;
      var pitchDegrees :- Required(m, Key.pitchDegrees, AsFloat);
      var stats :- Required(m, Key.stats, ParseStats);
      var center :- Required(m, Key.center, ParseLatLng);
      var azimuthDegrees :- Required(m, Key.azimuthDegrees, AsFloat);
      var planeHeightAtCenterMeters :- Required(m, Key.planeHeightAtCenterMeters, AsFloat);
      var boundingBox :- Required(m, Key.boundingBox, ParseLatLngBox);
      Ok(RoofSegmentSizeAndSunshineStats(pitchDegrees, stats, center, azimuthDegrees, planeHeightAtCenterMeters, boundingBox))
  }

  /** The keyword arguments `m` construct exactly `x`: each field without a default is
      present and reads as `x`'s value,
      and any other key is ignored. */
  predicate SegmentStatsAccepts(m: map<Key, Value>, x: RoofSegmentSizeAndSunshineStats) {
    Key.pitchDegrees in m && AsFloat(m[Key.pitchDegrees]) == Ok(x.pitchDegrees)
    && Key.stats in m && ParseStats(m[Key.stats]) == Ok(x.stats)
    && Key.center in m && ParseLatLng(m[Key.center]) == Ok(x.center)
    && Key.azimuthDegrees in m && AsFloat(m[Key.azimuthDegrees]) == Ok(x.azimuthDegrees)
    && Key.planeHeightAtCenterMeters in m && AsFloat(m[Key.planeHeightAtCenterMeters]) == Ok(x.planeHeightAtCenterMeters)
    && Key.boundingBox in m && ParseLatLngBox(m[Key.boundingBox]) == Ok(x.boundingBox)
  }

  lemma SegmentStatsFromAccepted(m: map<Key, Value>, x: RoofSegmentSizeAndSunshineStats)
    requires SegmentStatsAccepts(m, x)
    ensures ParseSegmentStats(Obj(m)) == Ok(x)
  {
  }

  lemma SegmentStatsAcceptedFrom(v: Value)
    requires ParseSegmentStats(v).Ok?
    ensures v.Obj? && SegmentStatsAccepts(v.fields, ParseSegmentStats(v).value)
  {
  }

  /** The object of already-serialised field values. */
  function SegmentStatsObject(pitchDegrees: Value, stats: Value, center: Value, azimuthDegrees: Value, planeHeightAtCenterMeters: Value, boundingBox: Value): map<Key, Value> {
    map[Key.pitchDegrees := pitchDegrees, Key.stats := stats, Key.center := center, Key.azimuthDegrees := azimuthDegrees, Key.planeHeightAtCenterMeters := planeHeightAtCenterMeters, Key.boundingBox := boundingBox]
  }

  lemma SegmentStatsObjectFields(pitchDegrees: Value, stats: Value, center: Value, azimuthDegrees: Value, planeHeightAtCenterMeters: Value, boundingBox: Value)
    ensures var m := SegmentStatsObject(pitchDegrees, stats, center, azimuthDegrees, planeHeightAtCenterMeters, boundingBox);
      Key.pitchDegrees in m && m[Key.pitchDegrees] == pitchDegrees
      && Key.stats in m && m[Key.stats] == stats
      && Key.center in m && m[Key.center] == center
      && Key.azimuthDegrees in m && m[Key.azimuthDegrees] == azimuthDegrees
      && Key.planeHeightAtCenterMeters in m && m[Key.planeHeightAtCenterMeters] == planeHeightAtCenterMeters
      && Key.boundingBox in m && m[Key.boundingBox] == boundingBox
  {
  }

  lemma SegmentStatsObjectKeys(pitchDegrees: Value, stats: Value, center: Value, azimuthDegrees: Value, planeHeightAtCenterMeters: Value, boundingBox: Value)
    ensures SegmentStatsObject(pitchDegrees, stats, center, azimuthDegrees, planeHeightAtCenterMeters, boundingBox).Keys == SegmentStatsFields
  {
  }

  lemma SegmentStatsObjectNoNulls(pitchDegrees: Value, stats: Value, center: Value, azimuthDegrees: Value, planeHeightAtCenterMeters: Value, boundingBox: Value)
    requires NoNulls(pitchDegrees) && NoNulls(stats) && NoNulls(center) && NoNulls(azimuthDegrees) && NoNulls(planeHeightAtCenterMeters) && NoNulls(boundingBox)
    ensures NoNulls(Obj(SegmentStatsObject(pitchDegrees, stats, center, azimuthDegrees, planeHeightAtCenterMeters, boundingBox)))
  {
    var m0: map<Key, Value> := map[];
    NoNullsPut(m0, Key.pitchDegrees, pitchDegrees);
    var m1 := m0[Key.pitchDegrees := pitchDegrees];
    NoNullsPut(m1, Key.stats, stats);
    var m2 := m1[Key.stats := stats];
    NoNullsPut(m2, Key.center, center);
    var m3 := m2[Key.center := center];
    NoNullsPut(m3, Key.azimuthDegrees, azimuthDegrees);
    var m4 := m3[Key.azimuthDegrees := azimuthDegrees];
    NoNullsPut(m4, Key.planeHeightAtCenterMeters, planeHeightAtCenterMeters);
    var m5 := m4[Key.planeHeightAtCenterMeters := planeHeightAtCenterMeters];
    NoNullsPut(m5, Key.boundingBox, boundingBox);
    var m6 := m5[Key.boundingBox := boundingBox];
  }

  /** An object whose serialised field values read back as `x`'s fields constructs `x`. */
  lemma SegmentStatsFromObject(x: RoofSegmentSizeAndSunshineStats, pitchDegrees: Value, stats: Value, center: Value, azimuthDegrees: Value, planeHeightAtCenterMeters: Value, boundingBox: Value)
    requires AsFloat(pitchDegrees) == Ok(x.pitchDegrees)
      && ParseStats(stats) == Ok(x.stats)
      && ParseLatLng(center) == Ok(x.center)
      && AsFloat(azimuthDegrees) == Ok(x.azimuthDegrees)
      && AsFloat(planeHeightAtCenterMeters) == Ok(x.planeHeightAtCenterMeters)
      && ParseLatLngBox(boundingBox) == Ok(x.boundingBox)
    ensures ParseSegmentStats(Obj(SegmentStatsObject(pitchDegrees, stats, center, azimuthDegrees, planeHeightAtCenterMeters, boundingBox))) == Ok(x)
  {
    SegmentStatsObjectFields(pitchDegrees, stats, center, azimuthDegrees, planeHeightAtCenterMeters, boundingBox);
    SegmentStatsFromAccepted(SegmentStatsObject(pitchDegrees, stats, center, azimuthDegrees, planeHeightAtCenterMeters, boundingBox), x);
  }

  /** Serialisation of a `RoofSegmentSizeAndSunshineStats`. */
  function DumpSegmentStats(x: RoofSegmentSizeAndSunshineStats): (r: Value)
    ensures r.Obj?
  {
    Obj(SegmentStatsObject(Num(x.pitchDegrees), DumpStats(x.stats), DumpLatLng(x.center), Num(x.azimuthDegrees), Num(x.planeHeightAtCenterMeters), DumpLatLngBox(x.boundingBox)))
  }

  /** The serialised object has exactly the declared keys. */
  lemma DumpSegmentStatsKeys(x: RoofSegmentSizeAndSunshineStats)
    ensures DumpSegmentStats(x).fields.Keys == SegmentStatsFields
  {
    SegmentStatsObjectKeys(Num(x.pitchDegrees), DumpStats(x.stats), DumpLatLng(x.center), Num(x.azimuthDegrees), Num(x.planeHeightAtCenterMeters), DumpLatLngBox(x.boundingBox));
  }

  /** With unset fields dropped, no `null` appears anywhere in the serialised tree. */
  lemma DumpSegmentStatsNoNulls(x: RoofSegmentSizeAndSunshineStats)
    ensures NoNulls(DumpSegmentStats(x))
  {
    DumpStatsNoNulls(x.stats);
    DumpLatLngNoNulls(x.center);
    DumpLatLngBoxNoNulls(x.boundingBox);
    SegmentStatsObjectNoNulls(Num(x.pitchDegrees), DumpStats(x.stats), DumpLatLng(x.center), Num(x.azimuthDegrees), Num(x.planeHeightAtCenterMeters), DumpLatLngBox(x.boundingBox));
  }

  /** Serialising with unset fields dropped and constructing again gives back the same record. */
  lemma SegmentStatsRoundTrip(x: RoofSegmentSizeAndSunshineStats)
    requires x.Valid()
    ensures ParseSegmentStats(DumpSegmentStats(x)) == Ok(x)
  {
    StatsRoundTrip(x.stats);
    LatLngRoundTrip(x.center);
    LatLngBoxRoundTrip(x.boundingBox);
    SegmentStatsFromObject(x, Num(x.pitchDegrees), DumpStats(x.stats), DumpLatLng(x.center), Num(x.azimuthDegrees), Num(x.planeHeightAtCenterMeters), DumpLatLngBox(x.boundingBox));
  }

  /** A list of `RoofSegmentSizeAndSunshineStats` records. */
  function AsSegmentStatsList(v: Value): (r: Parsed<seq<RoofSegmentSizeAndSunshineStats>>)
    ensures r.Ok? ==> v.Arr? && |r.value| == |v.items|
    ensures r.Ok? ==> forall j :: 0 <= j < |v.items| ==> ParseSegmentStats(v.items[j]) == Ok(r.value[j])
    ensures r.Ok? ==> forall j :: 0 <= j < |r.value| ==> r.value[j].Valid()
  {
    AsList(v, ParseSegmentStats)
  }

  function DumpSegmentStatsList(xs: seq<RoofSegmentSizeAndSunshineStats>): (r: Value)
    ensures r.Arr? && |r.items| == |xs|
    ensures forall i :: 0 <= i < |xs| ==> r.items[i] == DumpSegmentStats(xs[i])
  {
    Arr(seq(|xs|, i requires 0 <= i < |xs| => DumpSegmentStats(xs[i])))
  }

  lemma SegmentStatsListRoundTrip(xs: seq<RoofSegmentSizeAndSunshineStats>)
    requires forall i :: 0 <= i < |xs| ==> xs[i].Valid()
    ensures AsSegmentStatsList(DumpSegmentStatsList(xs)) == Ok(xs)
  {
    forall i | 0 <= i < |xs|
      ensures ParseSegmentStats(DumpSegmentStatsList(xs).items[i]) == Ok(xs[i])
    {
      SegmentStatsRoundTrip(xs[i]);
    }
    ListRoundTrip(xs, DumpSegmentStatsList(xs).items, ParseSegmentStats);
  }

  lemma SegmentStatsListNoNulls(xs: seq<RoofSegmentSizeAndSunshineStats>)
    ensures NoNulls(DumpSegmentStatsList(xs))
  {
    forall i | 0 <= i < |xs|
      ensures NoNulls(DumpSegmentStatsList(xs).items[i])
    {
      DumpSegmentStatsNoNulls(xs[i]);
    }
  }

  // ---- SolarPanel ---------------------------------------------------------------------

  datatype SolarPanel = SolarPanel(
    orientation: Orientation,
    yearlyEnergyDcKwh: real,
    segmentIndex: int,
    center: LatLng)
  {
    predicate Valid() {
      center.Valid()
    }
  }

  /** The fields of `SolarPanel` that have no default. */
  const SolarPanelFields: set<Key> := {Key.orientation, Key.yearlyEnergyDcKwh, Key.segmentIndex, Key.center}

  /** Construction of a `SolarPanel` from keyword arguments: every declared field in
      declaration order, the first failure reported at its field. */
  function ParseSolarPanel(v: Value): (r: Parsed<SolarPanel>)
    ensures !v.Obj? ==> r == Err(ValidationError([], ModelType))
    ensures r.Ok? ==> r.value.Valid()
  {
    if !v.Obj? then Fail(ModelType)
    else
      var m := v.fields;
      var orientation :- Required(m, Key.orientation, ParseOrientation);
      var yearlyEnergyDcKwh :- Required(m, Key.yearlyEnergyDcKwh, AsFloat);
      var segmentIndex :- Required(m, Key.segmentIndex, AsInt);
      var center :- Required(m, Key.center, ParseLatLng);
      Ok(SolarPanel(orientation, yearlyEnergyDcKwh, segmentIndex, center))
  }

  /** The keyword arguments `m` construct exactly `x`: each field without a default is
      present and reads as `x`'s value,
      and any other key is ignored. */
  predicate SolarPanelAccepts(m: map<Key, Value>, x: SolarPanel) {
    Key.orientation in m && ParseOrientation(m[Key.orientation]) == Ok(x.orientation)
    && Key.yearlyEnergyDcKwh in m && AsFloat(m[Key.yearlyEnergyDcKwh]) == Ok(x.yearlyEnergyDcKwh)
    && Key.segmentIndex in m && AsInt(m[Key.segmentIndex]) == Ok(x.segmentIndex)
    && Key.center in m && ParseLatLng(m[Key.center]) == Ok(x.center)
  }

  lemma SolarPanelFromAccepted(m: map<Key, Value>, x: SolarPanel)
    requires SolarPanelAccepts(m, x)
    ensures ParseSolarPanel(Obj(m)) == Ok(x)
  {
  }

  lemma SolarPanelAcceptedFrom(v: Value)
    requires ParseSolarPanel(v).Ok?
    ensures v.Obj? && SolarPanelAccepts(v.fields, ParseSolarPanel(v).value)
  {
  }

  /** The object of already-serialised field values. */
  function SolarPanelObject(orientation: Value, yearlyEnergyDcKwh: Value, segmentIndex: Value, center: Value): map<Key, Value> {
    map[Key.orientation := orientation, Key.yearlyEnergyDcKwh := yearlyEnergyDcKwh, Key.segmentIndex := segmentIndex, Key.center := center]
  }

  lemma SolarPanelObjectFields(orientation: Value, yearlyEnergyDcKwh: Value, segmentIndex: Value, center: Value)
    ensures var m := SolarPanelObject(orientation, yearlyEnergyDcKwh, segmentIndex, center);
      Key.orientation in m && m[Key.orientation] == orientation
      && Key.yearlyEnergyDcKwh in m && m[Key.yearlyEnergyDcKwh] == yearlyEnergyDcKwh
      && Key.segmentIndex in m && m[Key.segmentIndex] == segmentIndex
      && Key.center in m && m[Key.center] == center
  {
  }

  lemma SolarPanelObjectKeys(orientation: Value, yearlyEnergyDcKwh: Value, segmentIndex: Value, center: Value)
    ensures SolarPanelObject(orientation, yearlyEnergyDcKwh, segmentIndex, center).Keys == SolarPanelFields
  {
  }

  lemma SolarPanelObjectNoNulls(orientation: Value, yearlyEnergyDcKwh: Value, segmentIndex: Value, center: Value)
    requires NoNulls(orientation) && NoNulls(yearlyEnergyDcKwh) && NoNulls(segmentIndex) && NoNulls(center)
    ensures NoNulls(Obj(SolarPanelObject(orientation, yearlyEnergyDcKwh, segmentIndex, center)))
  {
    var m0: map<Key, Value> := map[];
    NoNullsPut(m0, Key.orientation, orientation);
    var m1 := m0[Key.orientation := orientation];
    NoNullsPut(m1, Key.yearlyEnergyDcKwh, yearlyEnergyDcKwh);
    var m2 := m1[Key.yearlyEnergyDcKwh := yearlyEnergyDcKwh];
    NoNullsPut(m2, Key.segmentIndex, segmentIndex);
    var m3 := m2[Key.segmentIndex := segmentIndex];
    NoNullsPut(m3, Key.center, center);
    var m4 := m3[Key.center := center];
  }

  /** An object whose serialised field values read back as `x`'s fields constructs `x`. */
  lemma SolarPanelFromObject(x: SolarPanel, orientation: Value, yearlyEnergyDcKwh: Value, segmentIndex: Value, center: Value)
    requires ParseOrientation(orientation) == Ok(x.orientation)
      && AsFloat(yearlyEnergyDcKwh) == Ok(x.yearlyEnergyDcKwh)
      && AsInt(segmentIndex) == Ok(x.segmentIndex)
      && ParseLatLng(center) == Ok(x.center)
    ensures ParseSolarPanel(Obj(SolarPanelObject(orientation, yearlyEnergyDcKwh, segmentIndex, center))) == Ok(x)
  {
    SolarPanelObjectFields(orientation, yearlyEnergyDcKwh, segmentIndex, center);
    SolarPanelFromAccepted(SolarPanelObject(orientation, yearlyEnergyDcKwh, segmentIndex, center), x);
  }

  /** Serialisation of a `SolarPanel`. */
  function DumpSolarPanel(x: SolarPanel): (r: Value)
    ensures r.Obj?
  {
    Obj(SolarPanelObject(Str(OrientationName(x.orientation)), Num(x.yearlyEnergyDcKwh), Num(x.segmentIndex as real), DumpLatLng(x.center)))
  }

  /** The serialised object has exactly the declared keys. */
  lemma DumpSolarPanelKeys(x: SolarPanel)
    ensures DumpSolarPanel(x).fields.Keys == SolarPanelFields
  {
    SolarPanelObjectKeys(Str(OrientationName(x.orientation)), Num(x.yearlyEnergyDcKwh), Num(x.segmentIndex as real), DumpLatLng(x.center));
  }

  /** With unset fields dropped, no `null` appears anywhere in the serialised tree. */
  lemma DumpSolarPanelNoNulls(x: SolarPanel)
    ensures NoNulls(DumpSolarPanel(x))
  {
    DumpLatLngNoNulls(x.center);
    SolarPanelObjectNoNulls(Str(OrientationName(x.orientation)), Num(x.yearlyEnergyDcKwh), Num(x.segmentIndex as real), DumpLatLng(x.center));
  }

  /** Serialising with unset fields dropped and constructing again gives back the same record. */
  lemma SolarPanelRoundTrip(x: SolarPanel)
    requires x.Valid()
    ensures ParseSolarPanel(DumpSolarPanel(x)) == Ok(x)
  {
    OrientationRoundTrip(x.orientation);
    LatLngRoundTrip(x.center);
    SolarPanelFromObject(x, Str(OrientationName(x.orientation)), Num(x.yearlyEnergyDcKwh), Num(x.segmentIndex as real), DumpLatLng(x.center));
  }

  /** A list of `SolarPanel` records. */
  function AsSolarPanels(v: Value): (r: Parsed<seq<SolarPanel>>)
    ensures r.Ok? ==> v.Arr? && |r.value| == |v.items|
    ensures r.Ok? ==> forall j :: 0 <= j < |v.items| ==> ParseSolarPanel(v.items[j]) == Ok(r.value[j])
    ensures r.Ok? ==> forall j :: 0 <= j < |r.value| ==> r.value[j].Valid()
  {
    AsList(v, ParseSolarPanel)
  }

  function DumpSolarPanels(xs: seq<SolarPanel>): (r: Value)
    ensures r.Arr? && |r.items| == |xs|
    ensures forall i :: 0 <= i < |xs| ==> r.items[i] == DumpSolarPanel(xs[i])
  {
    Arr(seq(|xs|, i requires 0 <= i < |xs| => DumpSolarPanel(xs[i])))
  }

  lemma SolarPanelsRoundTrip(xs: seq<SolarPanel>)
    requires forall i :: 0 <= i < |xs| ==> xs[i].Valid()
    ensures AsSolarPanels(DumpSolarPanels(xs)) == Ok(xs)
  {
    forall i | 0 <= i < |xs|
      ensures ParseSolarPanel(DumpSolarPanels(xs).items[i]) == Ok(xs[i])
    {
      SolarPanelRoundTrip(xs[i]);
    }
    ListRoundTrip(xs, DumpSolarPanels(xs).items, ParseSolarPanel);
  }

  lemma SolarPanelsNoNulls(xs: seq<SolarPanel>)
    ensures NoNulls(DumpSolarPanels(xs))
  {
    forall i | 0 <= i < |xs|
      ensures NoNulls(DumpSolarPanels(xs).items[i])
    {
      DumpSolarPanelNoNulls(xs[i]);
    }
  }

  // ---- SolarPanelConfig -----------------------------------------------------------------

  /** The total of `panelsCount` over a list of roof segment summaries. */
  function SumPanelsCount(xs: seq<RoofSegmentSummary>): int {
    if xs == [] then 0 else SumPanelsCount(xs[..|xs| - 1]) + xs[|xs| - 1].panelsCount
  }

  datatype SolarPanelConfig = SolarPanelConfig(
    roofSegmentSummaries: seq<RoofSegmentSummary>,
    panelsCount: int,
    yearlyEnergyDcKwh: real)
  {
    /** Documented, not checked: the total is the sum over the segments carrying panels. */
    predicate CountMatchesSummaries() {
      panelsCount == SumPanelsCount(roofSegmentSummaries)
    }
  }

  /** The fields of `SolarPanelConfig` that have no default. */
  const ConfigFields: set<Key> := {Key.roofSegmentSummaries, Key.panelsCount, Key.yearlyEnergyDcKwh}

  /** Construction of a `SolarPanelConfig` from keyword arguments: every declared field in
      declaration order, the first failure reported at its field. */
  function ParseConfig(v: Value): (r: Parsed<SolarPanelConfig>)
    ensures !v.Obj? ==> r == Err(ValidationError([], ModelType))
  {
    if !v.Obj? then Fail(ModelType)
    else
      var m := v.fields;
      var roofSegmentSummaries :- Required(m, Key.roofSegmentSummaries, AsSummaries);
      var panelsCount :- Required(m, Key.panelsCount, AsInt);
      var yearlyEnergyDcKwh :- Required(m, Key.yearlyEnergyDcKwh, AsFloat);
      Ok(SolarPanelConfig(roofSegmentSummaries, panelsCount, yearlyEnergyDcKwh))
  }

  /** The keyword arguments `m` construct exactly `x`: each field without a default is
      present and reads as `x`'s value,
      and any other key is ignored. */
  predicate ConfigAccepts(m: map<Key, Value>, x: SolarPanelConfig) {
    Key.roofSegmentSummaries in m && AsSummaries(m[Key.roofSegmentSummaries]) == Ok(x.roofSegmentSummaries)
    && Key.panelsCount in m && AsInt(m[Key.panelsCount]) == Ok(x.panelsCount)
    && Key.yearlyEnergyDcKwh in m && AsFloat(m[Key.yearlyEnergyDcKwh]) == Ok(x.yearlyEnergyDcKwh)
  }

  lemma ConfigFromAccepted(m: map<Key, Value>, x: SolarPanelConfig)
    requires ConfigAccepts(m, x)
    ensures ParseConfig(Obj(m)) == Ok(x)
  {
  }

  lemma ConfigAcceptedFrom(v: Value)
    requires ParseConfig(v).Ok?
    ensures v.Obj? && ConfigAccepts(v.fields, ParseConfig(v).value)
  {
  }

  /** The object of already-serialised field values. */
  function ConfigObject(roofSegmentSummaries: Value, panelsCount: Value, yearlyEnergyDcKwh: Value): map<Key, Value> {
    map[Key.roofSegmentSummaries := roofSegmentSummaries, Key.panelsCount := panelsCount, Key.yearlyEnergyDcKwh := yearlyEnergyDcKwh]
  }

  lemma ConfigObjectFields(roofSegmentSummaries: Value, panelsCount: Value, yearlyEnergyDcKwh: Value)
    ensures var m := ConfigObject(roofSegmentSummaries, panelsCount, yearlyEnergyDcKwh);
      Key.roofSegmentSummaries in m && m[Key.roofSegmentSummaries] == roofSegmentSummaries
      && Key.panelsCount in m && m[Key.panelsCount] == panelsCount
      && Key.yearlyEnergyDcKwh in m && m[Key.yearlyEnergyDcKwh] == yearlyEnergyDcKwh
  {
  }

  lemma ConfigObjectKeys(roofSegmentSummaries: Value, panelsCount: Value, yearlyEnergyDcKwh: Value)
    ensures ConfigObject(roofSegmentSummaries, panelsCount, yearlyEnergyDcKwh).Keys == ConfigFields
  {
  }

  lemma ConfigObjectNoNulls(roofSegmentSummaries: Value, panelsCount: Value, yearlyEnergyDcKwh: Value)
    requires NoNulls(roofSegmentSummaries) && NoNulls(panelsCount) && NoNulls(yearlyEnergyDcKwh)
    ensures NoNulls(Obj(ConfigObject(roofSegmentSummaries, panelsCount, yearlyEnergyDcKwh)))
  {
    var m0: map<Key, Value> := map[];
    NoNullsPut(m0, Key.roofSegmentSummaries, roofSegmentSummaries);
    var m1 := m0[Key.roofSegmentSummaries := roofSegmentSummaries];
    NoNullsPut(m1, Key.panelsCount, panelsCount);
    var m2 := m1[Key.panelsCount := panelsCount];
    NoNullsPut(m2, Key.yearlyEnergyDcKwh, yearlyEnergyDcKwh);
    var m3 := m2[Key.yearlyEnergyDcKwh := yearlyEnergyDcKwh];
  }

  /** An object whose serialised field values read back as `x`'s fields constructs `x`. */
  lemma ConfigFromObject(x: SolarPanelConfig, roofSegmentSummaries: Value, panelsCount: Value, yearlyEnergyDcKwh: Value)
    requires AsSummaries(roofSegmentSummaries) == Ok(x.roofSegmentSummaries)
      && AsInt(panelsCount) == Ok(x.panelsCount)
      && AsFloat(yearlyEnergyDcKwh) == Ok(x.yearlyEnergyDcKwh)
    ensures ParseConfig(Obj(ConfigObject(roofSegmentSummaries, panelsCount, yearlyEnergyDcKwh))) == Ok(x)
  {
    ConfigObjectFields(roofSegmentSummaries, panelsCount, yearlyEnergyDcKwh);
    ConfigFromAccepted(ConfigObject(roofSegmentSummaries, panelsCount, yearlyEnergyDcKwh), x);
  }

  /** Serialisation of a `SolarPanelConfig`. */
  function DumpConfig(x: SolarPanelConfig): (r: Value)
    ensures r.Obj?
  {
    Obj(ConfigObject(DumpSummaries(x.roofSegmentSummaries), Num(x.panelsCount as real), Num(x.yearlyEnergyDcKwh)))
  }

  /** The serialised object has exactly the declared keys. */
  lemma DumpConfigKeys(x: SolarPanelConfig)
    ensures DumpConfig(x).fields.Keys == ConfigFields
  {
    ConfigObjectKeys(DumpSummaries(x.roofSegmentSummaries), Num(x.panelsCount as real), Num(x.yearlyEnergyDcKwh));
  }

  /** With unset fields dropped, no `null` appears anywhere in the serialised tree. */
  lemma DumpConfigNoNulls(x: SolarPanelConfig)
    ensures NoNulls(DumpConfig(x))
  {
    SummariesNoNulls(x.roofSegmentSummaries);
    ConfigObjectNoNulls(DumpSummaries(x.roofSegmentSummaries), Num(x.panelsCount as real), Num(x.yearlyEnergyDcKwh));
  }

  /** Serialising with unset fields dropped and constructing again gives back the same record. */
  lemma ConfigRoundTrip(x: SolarPanelConfig)
    ensures ParseConfig(DumpConfig(x)) == Ok(x)
  {
    SummariesRoundTrip(x.roofSegmentSummaries);
    ConfigFromObject(x, DumpSummaries(x.roofSegmentSummaries), Num(x.panelsCount as real), Num(x.yearlyEnergyDcKwh));
  }

  /** A list of `SolarPanelConfig` records. */
  function AsConfigs(v: Value): (r: Parsed<seq<SolarPanelConfig>>)
    ensures r.Ok? ==> v.Arr? && |r.value| == |v.items|
    ensures r.Ok? ==> forall j :: 0 <= j < |v.items| ==> ParseConfig(v.items[j]) == Ok(r.value[j])
  {
    AsList(v, ParseConfig)
  }

  function DumpConfigs(xs: seq<SolarPanelConfig>): (r: Value)
    ensures r.Arr? && |r.items| == |xs|
    ensures forall i :: 0 <= i < |xs| ==> r.items[i] == DumpConfig(xs[i])
  {
    Arr(seq(|xs|, i requires 0 <= i < |xs| => DumpConfig(xs[i])))
  }

  lemma ConfigsRoundTrip(xs: seq<SolarPanelConfig>)
    ensures AsConfigs(DumpConfigs(xs)) == Ok(xs)
  {
    forall i | 0 <= i < |xs|
      ensures ParseConfig(DumpConfigs(xs).items[i]) == Ok(xs[i])
    {
      ConfigRoundTrip(xs[i]);
    }
    ListRoundTrip(xs, DumpConfigs(xs).items, ParseConfig);
  }

  lemma ConfigsNoNulls(xs: seq<SolarPanelConfig>)
    ensures NoNulls(DumpConfigs(xs))
  {
    forall i | 0 <= i < |xs|
      ensures NoNulls(DumpConfigs(xs).items[i])
    {
      DumpConfigNoNulls(xs[i]);
    }
  }

  /** The sum distributes over concatenation. */
  lemma {:induction false} SumPanelsCountAppend(xs: seq<RoofSegmentSummary>, ys: seq<RoofSegmentSummary>)
    ensures SumPanelsCount(xs + ys) == SumPanelsCount(xs) + SumPanelsCount(ys)
    decreases |ys|
  {
    if ys == [] {
      assert xs + ys == xs;
    } else {
      var ys' := ys[..|ys| - 1];
      assert (xs + ys)[..|xs + ys| - 1] == xs + ys';
      SumPanelsCountAppend(xs, ys');
    }
  }

  /** With no negative segment counts, no segment carries more panels than the whole layout. */
  lemma {:induction false} SegmentCountsWithinTotal(xs: seq<RoofSegmentSummary>, i: nat)
    requires i < |xs|
    requires forall j :: 0 <= j < |xs| ==> xs[j].panelsCount >= 0
    ensures 0 <= xs[i].panelsCount <= SumPanelsCount(xs)
  {
    var init := xs[..|xs| - 1];
    SumIsNonNegative(init);
    if i < |xs| - 1 {
      assert init[i] == xs[i];
      SegmentCountsWithinTotal(init, i);
    }
  }

  lemma {:induction false} SumIsNonNegative(xs: seq<RoofSegmentSummary>)
    requires forall j :: 0 <= j < |xs| ==> xs[j].panelsCount >= 0
    ensures SumPanelsCount(xs) >= 0
  {
    if xs != [] {
      var init := xs[..|xs| - 1];
      assert forall j :: 0 <= j < |init| ==> init[j] == xs[j];
      SumIsNonNegative(init);
    }
  }

  // ---- SolarPotential -------------------------------------------------------------------

  datatype SolarPotential = SolarPotential(
    maxSunshineHoursPerYear: real,
    maxArrayPanelsCount: int,
    panelHeightMeters: real,
    maxArrayAreaMeters2: real,
    panelWidthMeters: real,
    wholeRoofStats: SizeAndSunshineStats,
    solarPanelConfigs: seq<SolarPanelConfig>,
    financialAnalyses: seq<FinancialAnalysis>,
    panelLifetimeYears: int,
    buildingStats: Option<SizeAndSunshineStats>,
    carbonOffsetFactorKgPerMwh: real,
    roofSegmentStats: seq<RoofSegmentSizeAndSunshineStats>,
    panelCapacityWatts: real,
    solarPanels: Option<seq<SolarPanel>>)
  {
    /** The declared constraints of every nested record. */
    predicate Valid() {
      (forall i :: 0 <= i < |financialAnalyses| ==> financialAnalyses[i].Valid())
      && (forall i :: 0 <= i < |roofSegmentStats| ==> roofSegmentStats[i].Valid())
      && (solarPanels.Some? ==> forall i :: 0 <= i < |solarPanels.value| ==> solarPanels.value[i].Valid())
    }

    /** Documented, not checked: layouts in strictly increasing order of panel count. */
    predicate ConfigsIncreasing() {
      forall i, j :: 0 <= i < j < |solarPanelConfigs| ==> solarPanelConfigs[i].panelsCount < solarPanelConfigs[j].panelsCount
    }

    /** Documented, not checked: layouts are listed only when at least 4 panels fit. */
    predicate ConfigsHoldFourPanels() {
      forall i :: 0 <= i < |solarPanelConfigs| ==> solarPanelConfigs[i].panelsCount >= 4
    }

    /** Documented, not checked: each layout's total is the sum over its segments. */
    predicate ConfigCountsMatch() {
      forall i :: 0 <= i < |solarPanelConfigs| ==> solarPanelConfigs[i].CountMatchesSummaries()
    }

    /** Documented, not checked: the layout with N panels uses the first N entries of `solarPanels`,
        so the list is present and holds at least as many panels as any layout. */
    predicate ConfigsUseListedPanels() {
      solarPanels.Some?
      && forall i :: 0 <= i < |solarPanelConfigs| ==> solarPanelConfigs[i].panelsCount <= |solarPanels.value|
    }

    /** Documented, not checked: every segment index points into `roofSegmentStats`. */
    predicate SegmentIndexesInRange() {
      (forall i, j :: 0 <= i < |solarPanelConfigs| && 0 <= j < |solarPanelConfigs[i].roofSegmentSummaries| ==>
        0 <= solarPanelConfigs[i].roofSegmentSummaries[j].segmentIndex < |roofSegmentStats|)
      && (solarPanels.Some? ==> forall i :: 0 <= i < |solarPanels.value| ==>
        0 <= solarPanels.value[i].segmentIndex < |roofSegmentStats|)
    }

    /** Documented, not checked: each analysis names no layout or a listed one, and without a layout has no sub-analyses. */
    predicate AnalysesReferToConfigs() {
      forall i :: 0 <= i < |financialAnalyses| ==>
        financialAnalyses[i].LayoutIndexInRange(|solarPanelConfigs|) && financialAnalyses[i].NoLayoutOmitsDetails()
    }
  }

  /** The fields of `SolarPotential` that have no default. */
  const SolarPotentialFields: set<Key> := {Key.maxSunshineHoursPerYear, Key.maxArrayPanelsCount, Key.panelHeightMeters, Key.maxArrayAreaMeters2, Key.panelWidthMeters, Key.wholeRoofStats, Key.solarPanelConfigs, Key.financialAnalyses, Key.panelLifetimeYears, Key.carbonOffsetFactorKgPerMwh, Key.roofSegmentStats, Key.panelCapacityWatts}
  /** The fields of `SolarPotential` that default to unset. */
  const SolarPotentialOptionalFields: set<Key> := {Key.buildingStats, Key.solarPanels}

  /** Construction of a `SolarPotential` from keyword arguments: every declared field in
      declaration order, the first failure reported at its field. */
  function ParseSolarPotential(v: Value): (r: Parsed<SolarPotential>)
    ensures !v.Obj? ==> r == Err(ValidationError([], ModelType))
    ensures r.Ok? ==> r.value.Valid()
  {
    if !v.Obj? then Fail(ModelType)
    else
      var m := v.fields;
      var maxSunshineHoursPerYear :- Required(m, Key.maxSunshineHoursPerYear, AsFloat);
      var maxArrayPanelsCount :- Required(m, Key.maxArrayPanelsCount, AsInt);
      var panelHeightMeters :- Required(m, Key.panelHeightMeters, AsFloat);
      var maxArrayAreaMeters2 :- Required(m, Key.maxArrayAreaMeters2, AsFloat);
      var panelWidthMeters :- Required(m, Key.panelWidthMeters, AsFloat);
      var wholeRoofStats :- Required(m, Key.wholeRoofStats, ParseStats);
      var solarPanelConfigs :- Required(m, Key.solarPanelConfigs, AsConfigs);
      var financialAnalyses :- Required(m, Key.financialAnalyses, AsAnalyses);
      var panelLifetimeYears :- Required(m, Key.panelLifetimeYears, AsInt);
      var buildingStats :- Optional(m, Key.buildingStats, ParseStats);
      var carbonOffsetFactorKgPerMwh :- Required(m, Key.carbonOffsetFactorKgPerMwh, AsFloat);
      var roofSegmentStats :- Required(m, Key.roofSegmentStats, AsSegmentStatsList);
      var panelCapacityWatts :- Required(m, Key.panelCapacityWatts, AsFloat);
      var solarPanels :- Optional(m, Key.solarPanels, AsSolarPanels);
      Ok(SolarPotential(maxSunshineHoursPerYear, maxArrayPanelsCount, panelHeightMeters, maxArrayAreaMeters2, panelWidthMeters, wholeRoofStats, solarPanelConfigs, financialAnalyses, panelLifetimeYears, buildingStats, carbonOffsetFactorKgPerMwh, roofSegmentStats, panelCapacityWatts, solarPanels))
  }

  /** The keyword arguments `m` construct exactly `x`: each field without a default is
      present and reads as `x`'s value, each defaulted field is absent when `x` leaves it unset,
      and any other key is ignored. */
  predicate SolarPotentialAccepts(m: map<Key, Value>, x: SolarPotential) {
    Key.maxSunshineHoursPerYear in m && AsFloat(m[Key.maxSunshineHoursPerYear]) == Ok(x.maxSunshineHoursPerYear)
    && Key.maxArrayPanelsCount in m && AsInt(m[Key.maxArrayPanelsCount]) == Ok(x.maxArrayPanelsCount)
    && Key.panelHeightMeters in m && AsFloat(m[Key.panelHeightMeters]) == Ok(x.panelHeightMeters)
    && Key.maxArrayAreaMeters2 in m && AsFloat(m[Key.maxArrayAreaMeters2]) == Ok(x.maxArrayAreaMeters2)
    && Key.panelWidthMeters in m && AsFloat(m[Key.panelWidthMeters]) == Ok(x.panelWidthMeters)
    && Key.wholeRoofStats in m && ParseStats(m[Key.wholeRoofStats]) == Ok(x.wholeRoofStats)
    && Key.solarPanelConfigs in m && AsConfigs(m[Key.solarPanelConfigs]) == Ok(x.solarPanelConfigs)
    && Key.financialAnalyses in m && AsAnalyses(m[Key.financialAnalyses]) == Ok(x.financialAnalyses)
    && Key.panelLifetimeYears in m && AsInt(m[Key.panelLifetimeYears]) == Ok(x.panelLifetimeYears)
    && (if x.buildingStats.Some? then Key.buildingStats in m && ParseStats(m[Key.buildingStats]) == Ok(x.buildingStats.value) else Key.buildingStats !in m)
    && Key.carbonOffsetFactorKgPerMwh in m && AsFloat(m[Key.carbonOffsetFactorKgPerMwh]) == Ok(x.carbonOffsetFactorKgPerMwh)
    && Key.roofSegmentStats in m && AsSegmentStatsList(m[Key.roofSegmentStats]) == Ok(x.roofSegmentStats)
    && Key.panelCapacityWatts in m && AsFloat(m[Key.panelCapacityWatts]) == Ok(x.panelCapacityWatts)
    && (if x.solarPanels.Some? then Key.solarPanels in m && AsSolarPanels(m[Key.solarPanels]) == Ok(x.solarPanels.value) else Key.solarPanels !in m)
  }

  lemma SolarPotentialFromAccepted(m: map<Key, Value>, x: SolarPotential)
    requires SolarPotentialAccepts(m, x)
    ensures ParseSolarPotential(Obj(m)) == Ok(x)
  {
  }

  lemma SolarPotentialAcceptedFrom(v: Value)
    requires ParseSolarPotential(v).Ok?
    ensures v.Obj? && SolarPotentialAccepts(v.fields, ParseSolarPotential(v).value)
  {
  }

  /** The object of already-serialised field values. */
  function SolarPotentialObject(maxSunshineHoursPerYear: Value, maxArrayPanelsCount: Value, panelHeightMeters: Value, maxArrayAreaMeters2: Value, panelWidthMeters: Value, wholeRoofStats: Value, solarPanelConfigs: Value, financialAnalyses: Value, panelLifetimeYears: Value, carbonOffsetFactorKgPerMwh: Value, roofSegmentStats: Value, panelCapacityWatts: Value, buildingStats: Option<Value>, solarPanels: Option<Value>, excludeNone: bool): map<Key, Value> {
    PutOptional(PutOptional(map[Key.maxSunshineHoursPerYear := maxSunshineHoursPerYear, Key.maxArrayPanelsCount := maxArrayPanelsCount, Key.panelHeightMeters := panelHeightMeters, Key.maxArrayAreaMeters2 := maxArrayAreaMeters2, Key.panelWidthMeters := panelWidthMeters, Key.wholeRoofStats := wholeRoofStats, Key.solarPanelConfigs := solarPanelConfigs, Key.financialAnalyses := financialAnalyses, Key.panelLifetimeYears := panelLifetimeYears, Key.carbonOffsetFactorKgPerMwh := carbonOffsetFactorKgPerMwh, Key.roofSegmentStats := roofSegmentStats, Key.panelCapacityWatts := panelCapacityWatts], Key.buildingStats, buildingStats, excludeNone), Key.solarPanels, solarPanels, excludeNone)
  }

  lemma SolarPotentialObjectFields(maxSunshineHoursPerYear: Value, maxArrayPanelsCount: Value, panelHeightMeters: Value, maxArrayAreaMeters2: Value, panelWidthMeters: Value, wholeRoofStats: Value, solarPanelConfigs: Value, financialAnalyses: Value, panelLifetimeYears: Value, carbonOffsetFactorKgPerMwh: Value, roofSegmentStats: Value, panelCapacityWatts: Value, buildingStats: Option<Value>, solarPanels: Option<Value>, excludeNone: bool)
    ensures var m := SolarPotentialObject(maxSunshineHoursPerYear, maxArrayPanelsCount, panelHeightMeters, maxArrayAreaMeters2, panelWidthMeters, wholeRoofStats, solarPanelConfigs, financialAnalyses, panelLifetimeYears, carbonOffsetFactorKgPerMwh, roofSegmentStats, panelCapacityWatts, buildingStats, solarPanels, excludeNone);
      Key.maxSunshineHoursPerYear in m && m[Key.maxSunshineHoursPerYear] == maxSunshineHoursPerYear
      && Key.maxArrayPanelsCount in m && m[Key.maxArrayPanelsCount] == maxArrayPanelsCount
      && Key.panelHeightMeters in m && m[Key.panelHeightMeters] == panelHeightMeters
      && Key.maxArrayAreaMeters2 in m && m[Key.maxArrayAreaMeters2] == maxArrayAreaMeters2
      && Key.panelWidthMeters in m && m[Key.panelWidthMeters] == panelWidthMeters
      && Key.wholeRoofStats in m && m[Key.wholeRoofStats] == wholeRoofStats
      && Key.solarPanelConfigs in m && m[Key.solarPanelConfigs] == solarPanelConfigs
      && Key.financialAnalyses in m && m[Key.financialAnalyses] == financialAnalyses
      && Key.panelLifetimeYears in m && m[Key.panelLifetimeYears] == panelLifetimeYears
      && Key.carbonOffsetFactorKgPerMwh in m && m[Key.carbonOffsetFactorKgPerMwh] == carbonOffsetFactorKgPerMwh
      && Key.roofSegmentStats in m && m[Key.roofSegmentStats] == roofSegmentStats
      && Key.panelCapacityWatts in m && m[Key.panelCapacityWatts] == panelCapacityWatts
      && (Key.buildingStats in m <==> buildingStats.Some? || !excludeNone)
      && (buildingStats.Some? ==> m[Key.buildingStats] == buildingStats.value)
      && (buildingStats.None? && !excludeNone ==> m[Key.buildingStats] == Null)
      && (Key.solarPanels in m <==> solarPanels.Some? || !excludeNone)
      && (solarPanels.Some? ==> m[Key.solarPanels] == solarPanels.value)
      && (solarPanels.None? && !excludeNone ==> m[Key.solarPanels] == Null)
  {
  }

  lemma SolarPotentialObjectKeys(maxSunshineHoursPerYear: Value, maxArrayPanelsCount: Value, panelHeightMeters: Value, maxArrayAreaMeters2: Value, panelWidthMeters: Value, wholeRoofStats: Value, solarPanelConfigs: Value, financialAnalyses: Value, panelLifetimeYears: Value, carbonOffsetFactorKgPerMwh: Value, roofSegmentStats: Value, panelCapacityWatts: Value, buildingStats: Option<Value>, solarPanels: Option<Value>, excludeNone: bool)
    ensures SolarPotentialObject(maxSunshineHoursPerYear, maxArrayPanelsCount, panelHeightMeters, maxArrayAreaMeters2, panelWidthMeters, wholeRoofStats, solarPanelConfigs, financialAnalyses, panelLifetimeYears, carbonOffsetFactorKgPerMwh, roofSegmentStats, panelCapacityWatts, buildingStats, solarPanels, excludeNone).Keys == SolarPotentialFields + (if buildingStats.Some? || !excludeNone then {Key.buildingStats} else {}) + (if solarPanels.Some? || !excludeNone then {Key.solarPanels} else {})
  {
  }

  lemma SolarPotentialObjectNoNulls(maxSunshineHoursPerYear: Value, maxArrayPanelsCount: Value, panelHeightMeters: Value, maxArrayAreaMeters2: Value, panelWidthMeters: Value, wholeRoofStats: Value, solarPanelConfigs: Value, financialAnalyses: Value, panelLifetimeYears: Value, carbonOffsetFactorKgPerMwh: Value, roofSegmentStats: Value, panelCapacityWatts: Value, buildingStats: Option<Value>, solarPanels: Option<Value>, excludeNone: bool)
    requires excludeNone && NoNulls(maxSunshineHoursPerYear) && NoNulls(maxArrayPanelsCount) && NoNulls(panelHeightMeters) && NoNulls(maxArrayAreaMeters2) && NoNulls(panelWidthMeters) && NoNulls(wholeRoofStats) && NoNulls(solarPanelConfigs) && NoNulls(financialAnalyses) && NoNulls(panelLifetimeYears) && NoNulls(carbonOffsetFactorKgPerMwh) && NoNulls(roofSegmentStats) && NoNulls(panelCapacityWatts) && (buildingStats.Some? ==> NoNulls(buildingStats.value)) && (solarPanels.Some? ==> NoNulls(solarPanels.value))
    ensures NoNulls(Obj(SolarPotentialObject(maxSunshineHoursPerYear, maxArrayPanelsCount, panelHeightMeters, maxArrayAreaMeters2, panelWidthMeters, wholeRoofStats, solarPanelConfigs, financialAnalyses, panelLifetimeYears, carbonOffsetFactorKgPerMwh, roofSegmentStats, panelCapacityWatts, buildingStats, solarPanels, excludeNone)))
  {
    var m0: map<Key, Value> := map[];
    NoNullsPut(m0, Key.maxSunshineHoursPerYear, maxSunshineHoursPerYear);
    var m1 := m0[Key.maxSunshineHoursPerYear := maxSunshineHoursPerYear];
    NoNullsPut(m1, Key.maxArrayPanelsCount, maxArrayPanelsCount);
    var m2 := m1[Key.maxArrayPanelsCount := maxArrayPanelsCount];
    NoNullsPut(m2, Key.panelHeightMeters, panelHeightMeters);
    var m3 := m2[Key.panelHeightMeters := panelHeightMeters];
    NoNullsPut(m3, Key.maxArrayAreaMeters2, maxArrayAreaMeters2);
    var m4 := m3[Key.maxArrayAreaMeters2 := maxArrayAreaMeters2];
    NoNullsPut(m4, Key.panelWidthMeters, panelWidthMeters);
    var m5 := m4[Key.panelWidthMeters := panelWidthMeters];
    NoNullsPut(m5, Key.wholeRoofStats, wholeRoofStats);
    var m6 := m5[Key.wholeRoofStats := wholeRoofStats];
    NoNullsPut(m6, Key.solarPanelConfigs, solarPanelConfigs);
    var m7 := m6[Key.solarPanelConfigs := solarPanelConfigs];
    NoNullsPut(m7, Key.financialAnalyses, financialAnalyses);
    var m8 := m7[Key.financialAnalyses := financialAnalyses];
    NoNullsPut(m8, Key.panelLifetimeYears, panelLifetimeYears);
    var m9 := m8[Key.panelLifetimeYears := panelLifetimeYears];
    NoNullsPut(m9, Key.carbonOffsetFactorKgPerMwh, carbonOffsetFactorKgPerMwh);
    var m10 := m9[Key.carbonOffsetFactorKgPerMwh := carbonOffsetFactorKgPerMwh];
    NoNullsPut(m10, Key.roofSegmentStats, roofSegmentStats);
    var m11 := m10[Key.roofSegmentStats := roofSegmentStats];
    NoNullsPut(m11, Key.panelCapacityWatts, panelCapacityWatts);
    var m12 := m11[Key.panelCapacityWatts := panelCapacityWatts];
    NoNullsPutOptional(m12, Key.buildingStats, buildingStats);
    var m13 := PutOptional(m12, Key.buildingStats, buildingStats, true);
    NoNullsPutOptional(m13, Key.solarPanels, solarPanels);
    var m14 := PutOptional(m13, Key.solarPanels, solarPanels, true);
  }

  /** An object whose serialised field values read back as `x`'s fields constructs `x`. */
  lemma SolarPotentialFromObject(x: SolarPotential, maxSunshineHoursPerYear: Value, maxArrayPanelsCount: Value, panelHeightMeters: Value, maxArrayAreaMeters2: Value, panelWidthMeters: Value, wholeRoofStats: Value, solarPanelConfigs: Value, financialAnalyses: Value, panelLifetimeYears: Value, carbonOffsetFactorKgPerMwh: Value, roofSegmentStats: Value, panelCapacityWatts: Value, buildingStats: Option<Value>, solarPanels: Option<Value>)
    requires AsFloat(maxSunshineHoursPerYear) == Ok(x.maxSunshineHoursPerYear)
      && AsInt(maxArrayPanelsCount) == Ok(x.maxArrayPanelsCount)
      && AsFloat(panelHeightMeters) == Ok(x.panelHeightMeters)
      && AsFloat(maxArrayAreaMeters2) == Ok(x.maxArrayAreaMeters2)
      && AsFloat(panelWidthMeters) == Ok(x.panelWidthMeters)
      && ParseStats(wholeRoofStats) == Ok(x.wholeRoofStats)
      && AsConfigs(solarPanelConfigs) == Ok(x.solarPanelConfigs)
      && AsAnalyses(financialAnalyses) == Ok(x.financialAnalyses)
      && AsInt(panelLifetimeYears) == Ok(x.panelLifetimeYears)
      && AsFloat(carbonOffsetFactorKgPerMwh) == Ok(x.carbonOffsetFactorKgPerMwh)
      && AsSegmentStatsList(roofSegmentStats) == Ok(x.roofSegmentStats)
      && AsFloat(panelCapacityWatts) == Ok(x.panelCapacityWatts)
      && (if x.buildingStats.Some? then buildingStats.Some? && ParseStats(buildingStats.value) == Ok(x.buildingStats.value) else buildingStats.None?)
      && (if x.solarPanels.Some? then solarPanels.Some? && AsSolarPanels(solarPanels.value) == Ok(x.solarPanels.value) else solarPanels.None?)
    ensures ParseSolarPotential(Obj(SolarPotentialObject(maxSunshineHoursPerYear, maxArrayPanelsCount, panelHeightMeters, maxArrayAreaMeters2, panelWidthMeters, wholeRoofStats, solarPanelConfigs, financialAnalyses, panelLifetimeYears, carbonOffsetFactorKgPerMwh, roofSegmentStats, panelCapacityWatts, buildingStats, solarPanels, true))) == Ok(x)
  {
    SolarPotentialObjectFields(maxSunshineHoursPerYear, maxArrayPanelsCount, panelHeightMeters, maxArrayAreaMeters2, panelWidthMeters, wholeRoofStats, solarPanelConfigs, financialAnalyses, panelLifetimeYears, carbonOffsetFactorKgPerMwh, roofSegmentStats, panelCapacityWatts, buildingStats, solarPanels, true);
    SolarPotentialFromAccepted(SolarPotentialObject(maxSunshineHoursPerYear, maxArrayPanelsCount, panelHeightMeters, maxArrayAreaMeters2, panelWidthMeters, wholeRoofStats, solarPanelConfigs, financialAnalyses, panelLifetimeYears, carbonOffsetFactorKgPerMwh, roofSegmentStats, panelCapacityWatts, buildingStats, solarPanels, true), x);
  }

  /** Serialisation of a `SolarPotential`; an unset field is dropped when `excludeNone` holds and written as `null` otherwise. */
  function DumpSolarPotential(x: SolarPotential, excludeNone: bool): (r: Value)
    ensures r.Obj?
  {
    Obj(SolarPotentialObject(Num(x.maxSunshineHoursPerYear), Num(x.maxArrayPanelsCount as real), Num(x.panelHeightMeters), Num(x.maxArrayAreaMeters2), Num(x.panelWidthMeters), DumpStats(x.wholeRoofStats), DumpConfigs(x.solarPanelConfigs), DumpAnalyses(x.financialAnalyses, excludeNone), Num(x.panelLifetimeYears as real), Num(x.carbonOffsetFactorKgPerMwh), DumpSegmentStatsList(x.roofSegmentStats), Num(x.panelCapacityWatts), if x.buildingStats.Some? then Some(DumpStats(x.buildingStats.value)) else None, if x.solarPanels.Some? then Some(DumpSolarPanels(x.solarPanels.value)) else None, excludeNone))
  }

  /** The serialised object has exactly the declared keys, minus the unset ones when they are dropped. */
  lemma DumpSolarPotentialKeys(x: SolarPotential, excludeNone: bool)
    ensures DumpSolarPotential(x, excludeNone).fields.Keys == SolarPotentialFields + (if x.buildingStats.Some? || !excludeNone then {Key.buildingStats} else {}) + (if x.solarPanels.Some? || !excludeNone then {Key.solarPanels} else {})
  {
    SolarPotentialObjectKeys(Num(x.maxSunshineHoursPerYear), Num(x.maxArrayPanelsCount as real), Num(x.panelHeightMeters), Num(x.maxArrayAreaMeters2), Num(x.panelWidthMeters), DumpStats(x.wholeRoofStats), DumpConfigs(x.solarPanelConfigs), DumpAnalyses(x.financialAnalyses, excludeNone), Num(x.panelLifetimeYears as real), Num(x.carbonOffsetFactorKgPerMwh), DumpSegmentStatsList(x.roofSegmentStats), Num(x.panelCapacityWatts), if x.buildingStats.Some? then Some(DumpStats(x.buildingStats.value)) else None, if x.solarPanels.Some? then Some(DumpSolarPanels(x.solarPanels.value)) else None, excludeNone);
  }

  /** With unset fields dropped, no `null` appears anywhere in the serialised tree. */
  lemma DumpSolarPotentialNoNulls(x: SolarPotential)
    ensures NoNulls(DumpSolarPotential(x, true))
  {
    DumpStatsNoNulls(x.wholeRoofStats);
    ConfigsNoNulls(x.solarPanelConfigs);
    AnalysesNoNulls(x.financialAnalyses);
    SegmentStatsListNoNulls(x.roofSegmentStats);
    if x.buildingStats.Some? { DumpStatsNoNulls(x.buildingStats.value); }
    if x.solarPanels.Some? { SolarPanelsNoNulls(x.solarPanels.value); }
    SolarPotentialObjectNoNulls(Num(x.maxSunshineHoursPerYear), Num(x.maxArrayPanelsCount as real), Num(x.panelHeightMeters), Num(x.maxArrayAreaMeters2), Num(x.panelWidthMeters), DumpStats(x.wholeRoofStats), DumpConfigs(x.solarPanelConfigs), DumpAnalyses(x.financialAnalyses, true), Num(x.panelLifetimeYears as real), Num(x.carbonOffsetFactorKgPerMwh), DumpSegmentStatsList(x.roofSegmentStats), Num(x.panelCapacityWatts), if x.buildingStats.Some? then Some(DumpStats(x.buildingStats.value)) else None, if x.solarPanels.Some? then Some(DumpSolarPanels(x.solarPanels.value)) else None, true);
  }

  /** Serialising with unset fields dropped and constructing again gives back the same record. */
  lemma SolarPotentialRoundTrip(x: SolarPotential)
    requires x.Valid()
    ensures ParseSolarPotential(DumpSolarPotential(x, true)) == Ok(x)
  {
    StatsRoundTrip(x.wholeRoofStats);
    ConfigsRoundTrip(x.solarPanelConfigs);
    AnalysesRoundTrip(x.financialAnalyses);
    assert x.buildingStats.Some? ==> ParseStats(DumpStats(x.buildingStats.value)) == Ok(x.buildingStats.value) by {
      if x.buildingStats.Some? { StatsRoundTrip(x.buildingStats.value); }
    }
    SegmentStatsListRoundTrip(x.roofSegmentStats);
    assert x.solarPanels.Some? ==> AsSolarPanels(DumpSolarPanels(x.solarPanels.value)) == Ok(x.solarPanels.value) by {
      if x.solarPanels.Some? { SolarPanelsRoundTrip(x.solarPanels.value); }
    }
    SolarPotentialFromObject(x, Num(x.maxSunshineHoursPerYear), Num(x.maxArrayPanelsCount as real), Num(x.panelHeightMeters), Num(x.maxArrayAreaMeters2), Num(x.panelWidthMeters), DumpStats(x.wholeRoofStats), DumpConfigs(x.solarPanelConfigs), DumpAnalyses(x.financialAnalyses, true), Num(x.panelLifetimeYears as real), Num(x.carbonOffsetFactorKgPerMwh), DumpSegmentStatsList(x.roofSegmentStats), Num(x.panelCapacityWatts), if x.buildingStats.Some? then Some(DumpStats(x.buildingStats.value)) else None, if x.solarPanels.Some? then Some(DumpSolarPanels(x.solarPanels.value)) else None);
  }

  /** For layouts in increasing order, the four-panel rule is a rule about the first layout alone. */
  lemma FourPanelsFromFirst(p: SolarPotential)
    requires p.ConfigsIncreasing()
    ensures p.ConfigsHoldFourPanels() <==> (|p.solarPanelConfigs| == 0 || p.solarPanelConfigs[0].panelsCount >= 4)
  {
    if |p.solarPanelConfigs| > 0 && p.solarPanelConfigs[0].panelsCount >= 4 {
      forall i | 0 < i < |p.solarPanelConfigs|
        ensures p.solarPanelConfigs[i].panelsCount >= 4
      {
        assert p.solarPanelConfigs[0].panelsCount < p.solarPanelConfigs[i].panelsCount;
      }
    }
  }
}
