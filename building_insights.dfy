/** The top-level record of solar_api_mock/core/properties/building_insights.py:
    the location, imagery and solar potential of one building. */
module Insights {
  import opened Wrappers
  import opened Json
  import opened Common
  import opened Solar

  datatype BuildingInsights = BuildingInsights(
    administrativeArea: string,
    imageryProcessedDate: Option<Date>,
    center: LatLng,
    imageryQuality: Option<ImageryQuality>,
    name: string,
    solarPotential: SolarPotential,
    regionCode: string,
    postalCode: string,
    imageryDate: Date,
    statisticalArea: string,
    boundingBox: LatLngBox)
  {
    /** The declared constraints of every nested record. */
    predicate Valid() {
      (imageryProcessedDate.Some? ==> imageryProcessedDate.value.Valid())
      && center.Valid()
      && solarPotential.Valid()
      && imageryDate.Valid()
      && boundingBox.Valid()
    }
  }

  /** The fields of `BuildingInsights` that have no default. */
  const BuildingInsightsFields: set<Key> := {Key.administrativeArea, Key.center, Key.name, Key.solarPotential, Key.regionCode, Key.postalCode, Key.imageryDate, Key.statisticalArea, Key.boundingBox}
  /** The fields of `BuildingInsights` that default to unset. */
  const BuildingInsightsOptionalFields: set<Key> := {Key.imageryProcessedDate, Key.imageryQuality}

  /** Construction of a `BuildingInsights` from keyword arguments: every declared field in
      declaration order, the first failure reported at its field. */
  function ParseBuildingInsights(v: Value): (r: Parsed<BuildingInsights>)
    ensures !v.Obj? ==> r == Err(ValidationError([], ModelType))
    ensures r.Ok? ==> r.value.Valid()
  {
    if !v.Obj? then Fail(ModelType)
    else
      var m := v.fields;
      var administrativeArea :- Required(m, Key.administrativeArea, AsStr);
      var imageryProcessedDate :- Optional(m, Key.imageryProcessedDate, ParseDate);
      var center :- Required(m, Key.center, ParseLatLng);
      var imageryQuality :- Optional(m, Key.imageryQuality, ParseQuality);
      var name :- Required(m, Key.name, AsStr);
      var solarPotential :- Required(m, Key.solarPotential, ParseSolarPotential);
      var regionCode :- Required(m, Key.regionCode, AsStr);
      var postalCode :- Required(m, Key.postalCode, AsStr);
      var imageryDate :- Required(m, Key.imageryDate, ParseDate);
      var statisticalArea :- Required(m, Key.statisticalArea, AsStr);
      var boundingBox :- Required(m, Key.boundingBox, ParseLatLngBox);
      Ok(BuildingInsights(administrativeArea, imageryProcessedDate, center, imageryQuality, name, solarPotential, regionCode, postalCode, imageryDate, statisticalArea, boundingBox))
  }

  /** The keyword arguments `m` construct exactly `x`: each field without a default is
      present and reads as `x`'s value, each defaulted field is absent when `x` leaves it unset,
      and any other key is ignored. */
  predicate BuildingInsightsAccepts(m: map<Key, Value>, x: BuildingInsights) {
    Key.administrativeArea in m && AsStr(m[Key.administrativeArea]) == Ok(x.administrativeArea)
    && (if x.imageryProcessedDate.Some? then Key.imageryProcessedDate in m && ParseDate(m[Key.imageryProcessedDate]) == Ok(x.imageryProcessedDate.value) else Key.imageryProcessedDate !in m)
    && Key.center in m && ParseLatLng(m[Key.center]) == Ok(x.center)
    && (if x.imageryQuality.Some? then Key.imageryQuality in m && ParseQuality(m[Key.imageryQuality]) == Ok(x.imageryQuality.value) else Key.imageryQuality !in m)
    && Key.name in m && AsStr(m[Key.name]) == Ok(x.name)
    && Key.solarPotential in m && ParseSolarPotential(m[Key.solarPotential]) == Ok(x.solarPotential)
    && Key.regionCode in m && AsStr(m[Key.regionCode]) == Ok(x.regionCode)
    && Key.postalCode in m && AsStr(m[Key.postalCode]) == Ok(x.postalCode)
    && Key.imageryDate in m && ParseDate(m[Key.imageryDate]) == Ok(x.imageryDate)
    && Key.statisticalArea in m && AsStr(m[Key.statisticalArea]) == Ok(x.statisticalArea)
    && Key.boundingBox in m && ParseLatLngBox(m[Key.boundingBox]) == Ok(x.boundingBox)
  }

  lemma BuildingInsightsFromAccepted(m: map<Key, Value>, x: BuildingInsights)
    requires BuildingInsightsAccepts(m, x)
    ensures ParseBuildingInsights(Obj(m)) == Ok(x)
  {
  }

  lemma BuildingInsightsAcceptedFrom(v: Value)
    requires ParseBuildingInsights(v).Ok?
    ensures v.Obj? && BuildingInsightsAccepts(v.fields, ParseBuildingInsights(v).value)
  {
  }

  /** The object of already-serialised field values. */
  function BuildingInsightsObject(administrativeArea: Value, center: Value, name: Value, solarPotential: Value, regionCode: Value, postalCode: Value, imageryDate: Value, statisticalArea: Value, boundingBox: Value, imageryProcessedDate: Option<Value>, imageryQuality: Option<Value>, excludeNone: bool): map<Key, Value> {
    PutOptional(PutOptional(map[Key.administrativeArea := administrativeArea, Key.center := center, Key.name := name, Key.solarPotential := solarPotential, Key.regionCode := regionCode, Key.postalCode := postalCode, Key.imageryDate := imageryDate, Key.statisticalArea := statisticalArea, Key.boundingBox := boundingBox], Key.imageryProcessedDate, imageryProcessedDate, excludeNone), Key.imageryQuality, imageryQuality, excludeNone)
  }

  lemma BuildingInsightsObjectFields(administrativeArea: Value, center: Value, name: Value, solarPotential: Value, regionCode: Value, postalCode: Value, imageryDate: Value, statisticalArea: Value, boundingBox: Value, imageryProcessedDate: Option<Value>, imageryQuality: Option<Value>, excludeNone: bool)
    ensures var m := BuildingInsightsObject(administrativeArea, center, name, solarPotential, regionCode, postalCode, imageryDate, statisticalArea, boundingBox, imageryProcessedDate, imageryQuality, excludeNone);
      Key.administrativeArea in m && m[Key.administrativeArea] == administrativeArea
      && Key.center in m && m[Key.center] == center
      && Key.name in m && m[Key.name] == name
      && Key.solarPotential in m && m[Key.solarPotential] == solarPotential
      && Key.regionCode in m && m[Key.regionCode] == regionCode
      && Key.postalCode in m && m[Key.postalCode] == postalCode
      && Key.imageryDate in m && m[Key.imageryDate] == imageryDate
      && Key.statisticalArea in m && m[Key.statisticalArea] == statisticalArea
      && Key.boundingBox in m && m[Key.boundingBox] == boundingBox
      && (Key.imageryProcessedDate in m <==> imageryProcessedDate.Some? || !excludeNone)
      && (imageryProcessedDate.Some? ==> m[Key.imageryProcessedDate] == imageryProcessedDate.value)
      && (imageryProcessedDate.None? && !excludeNone ==> m[Key.imageryProcessedDate] == Null)
      && (Key.imageryQuality in m <==> imageryQuality.Some? || !excludeNone)
      && (imageryQuality.Some? ==> m[Key.imageryQuality] == imageryQuality.value)
      && (imageryQuality.None? && !excludeNone ==> m[Key.imageryQuality] == Null)
  {
  }

  lemma BuildingInsightsObjectKeys(administrativeArea: Value, center: Value, name: Value, solarPotential: Value, regionCode: Value, postalCode: Value, imageryDate: Value, statisticalArea: Value, boundingBox: Value, imageryProcessedDate: Option<Value>, imageryQuality: Option<Value>, excludeNone: bool)
    ensures BuildingInsightsObject(administrativeArea, center, name, solarPotential, regionCode, postalCode, imageryDate, statisticalArea, boundingBox, imageryProcessedDate, imageryQuality, excludeNone).Keys == BuildingInsightsFields + (if imageryProcessedDate.Some? || !excludeNone then {Key.imageryProcessedDate} else {}) + (if imageryQuality.Some? || !excludeNone then {Key.imageryQuality} else {})
  {
  }

  lemma BuildingInsightsObjectNoNulls(administrativeArea: Value, center: Value, name: Value, solarPotential: Value, regionCode: Value, postalCode: Value, imageryDate: Value, statisticalArea: Value, boundingBox: Value, imageryProcessedDate: Option<Value>, imageryQuality: Option<Value>, excludeNone: bool)
    requires excludeNone && NoNulls(administrativeArea) && NoNulls(center) && NoNulls(name) && NoNulls(solarPotential) && NoNulls(regionCode) && NoNulls(postalCode) && NoNulls(imageryDate) && NoNulls(statisticalArea) && NoNulls(boundingBox) && (imageryProcessedDate.Some? ==> NoNulls(imageryProcessedDate.value)) && (imageryQuality.Some? ==> NoNulls(imageryQuality.value))
    ensures NoNulls(Obj(BuildingInsightsObject(administrativeArea, center, name, solarPotential, regionCode, postalCode, imageryDate, statisticalArea, boundingBox, imageryProcessedDate, imageryQuality, excludeNone)))
  {
    var m0: map<Key, Value> := map[];
    NoNullsPut(m0, Key.administrativeArea, administrativeArea);
    var m1 := m0[Key.administrativeArea := administrativeArea];
    NoNullsPut(m1, Key.center, center);
    var m2 := m1[Key.center := center];
    NoNullsPut(m2, Key.name, name);
    var m3 := m2[Key.name := name];
    NoNullsPut(m3, Key.solarPotential, solarPotential);
    var m4 := m3[Key.solarPotential := solarPotential];
    NoNullsPut(m4, Key.regionCode, regionCode);
    var m5 := m4[Key.regionCode := regionCode];
    NoNullsPut(m5, Key.postalCode, postalCode);
    var m6 := m5[Key.postalCode := postalCode];
    NoNullsPut(m6, Key.imageryDate, imageryDate);
    var m7 := m6[Key.imageryDate := imageryDate];
    NoNullsPut(m7, Key.statisticalArea, statisticalArea);
    var m8 := m7[Key.statisticalArea := statisticalArea];
    NoNullsPut(m8, Key.boundingBox, boundingBox);
    var m9 := m8[Key.boundingBox := boundingBox];
    NoNullsPutOptional(m9, Key.imageryProcessedDate, imageryProcessedDate);
    var m10 := PutOptional(m9, Key.imageryProcessedDate, imageryProcessedDate, true);
    NoNullsPutOptional(m10, Key.imageryQuality, imageryQuality);
    var m11 := PutOptional(m10, Key.imageryQuality, imageryQuality, true);
  }

  /** An object whose serialised field values read back as `x`'s fields constructs `x`. */
  lemma BuildingInsightsFromObject(x: BuildingInsights, administrativeArea: Value, center: Value, name: Value, solarPotential: Value, regionCode: Value, postalCode: Value, imageryDate: Value, statisticalArea: Value, boundingBox: Value, imageryProcessedDate: Option<Value>, imageryQuality: Option<Value>)
    requires AsStr(administrativeArea) == Ok(x.administrativeArea)
      && ParseLatLng(center) == Ok(x.center)
      && AsStr(name) == Ok(x.name)
      && ParseSolarPotential(solarPotential) == Ok(x.solarPotential)
      && AsStr(regionCode) == Ok(x.regionCode)
      && AsStr(postalCode) == Ok(x.postalCode)
      && ParseDate(imageryDate) == Ok(x.imageryDate)
      && AsStr(statisticalArea) == Ok(x.statisticalArea)
      && ParseLatLngBox(boundingBox) == Ok(x.boundingBox)
      && (if x.imageryProcessedDate.Some? then imageryProcessedDate.Some? && ParseDate(imageryProcessedDate.value) == Ok(x.imageryProcessedDate.value) else imageryProcessedDate.None?)
      && (if x.imageryQuality.Some? then imageryQuality.Some? && ParseQuality(imageryQuality.value) == Ok(x.imageryQuality.value) else imageryQuality.None?)
    ensures ParseBuildingInsights(Obj(BuildingInsightsObject(administrativeArea, center, name, solarPotential, regionCode, postalCode, imageryDate, statisticalArea, boundingBox, imageryProcessedDate, imageryQuality, true))) == Ok(x)
  {
    BuildingInsightsObjectFields(administrativeArea, center, name, solarPotential, regionCode, postalCode, imageryDate, statisticalArea, boundingBox, imageryProcessedDate, imageryQuality, true);
    BuildingInsightsFromAccepted(BuildingInsightsObject(administrativeArea, center, name, solarPotential, regionCode, postalCode, imageryDate, statisticalArea, boundingBox, imageryProcessedDate, imageryQuality, true), x);
  }

  /** Serialisation of a `BuildingInsights`; an unset field is dropped when `excludeNone` holds and written as `null` otherwise. */
  function DumpBuildingInsights(x: BuildingInsights, excludeNone: bool): (r: Value)
    ensures r.Obj?
  {
    Obj(BuildingInsightsObject(Str(x.administrativeArea), DumpLatLng(x.center), Str(x.name), DumpSolarPotential(x.solarPotential, excludeNone), Str(x.regionCode), Str(x.postalCode), DumpDate(x.imageryDate), Str(x.statisticalArea), DumpLatLngBox(x.boundingBox), if x.imageryProcessedDate.Some? then Some(DumpDate(x.imageryProcessedDate.value)) else None, if x.imageryQuality.Some? then Some(Str(QualityName(x.imageryQuality.value))) else None, excludeNone))
  }

  /** The serialised object has exactly the declared keys, minus the unset ones when they are dropped. */
  lemma DumpBuildingInsightsKeys(x: BuildingInsights, excludeNone: bool)
    ensures DumpBuildingInsights(x, excludeNone).fields.Keys == BuildingInsightsFields + (if x.imageryProcessedDate.Some? || !excludeNone then {Key.imageryProcessedDate} else {}) + (if x.imageryQuality.Some? || !excludeNone then {Key.imageryQuality} else {})
  {
    BuildingInsightsObjectKeys(Str(x.administrativeArea), DumpLatLng(x.center), Str(x.name), DumpSolarPotential(x.solarPotential, excludeNone), Str(x.regionCode), Str(x.postalCode), DumpDate(x.imageryDate), Str(x.statisticalArea), DumpLatLngBox(x.boundingBox), if x.imageryProcessedDate.Some? then Some(DumpDate(x.imageryProcessedDate.value)) else None, if x.imageryQuality.Some? then Some(Str(QualityName(x.imageryQuality.value))) else None, excludeNone);
  }

  /** With unset fields dropped, no `null` appears anywhere in the serialised tree. */
  lemma DumpBuildingInsightsNoNulls(x: BuildingInsights)
    ensures NoNulls(DumpBuildingInsights(x, true))
  {
    DumpLatLngNoNulls(x.center);
    DumpSolarPotentialNoNulls(x.solarPotential);
    DumpDateNoNulls(x.imageryDate);
    DumpLatLngBoxNoNulls(x.boundingBox);
    if x.imageryProcessedDate.Some? { DumpDateNoNulls(x.imageryProcessedDate.value); }
    BuildingInsightsObjectNoNulls(Str(x.administrativeArea), DumpLatLng(x.center), Str(x.name), DumpSolarPotential(x.solarPotential, true), Str(x.regionCode), Str(x.postalCode), DumpDate(x.imageryDate), Str(x.statisticalArea), DumpLatLngBox(x.boundingBox), if x.imageryProcessedDate.Some? then Some(DumpDate(x.imageryProcessedDate.value)) else None, if x.imageryQuality.Some? then Some(Str(QualityName(x.imageryQuality.value))) else None, true);
  }

  /** Serialising with unset fields dropped and constructing again gives back the same record. */
  lemma BuildingInsightsRoundTrip(x: BuildingInsights)
    requires x.Valid()
    ensures ParseBuildingInsights(DumpBuildingInsights(x, true)) == Ok(x)
  {
    assert x.imageryProcessedDate.Some? ==> ParseDate(DumpDate(x.imageryProcessedDate.value)) == Ok(x.imageryProcessedDate.value) by {
      if x.imageryProcessedDate.Some? { DateRoundTrip(x.imageryProcessedDate.value); }
    }
    LatLngRoundTrip(x.center);
    assert x.imageryQuality.Some? ==> ParseQuality(Str(QualityName(x.imageryQuality.value))) == Ok(x.imageryQuality.value) by {
      if x.imageryQuality.Some? { QualityRoundTrip(x.imageryQuality.value); }
    }
    SolarPotentialRoundTrip(x.solarPotential);
    DateRoundTrip(x.imageryDate);
    LatLngBoxRoundTrip(x.boundingBox);
    BuildingInsightsFromObject(x, Str(x.administrativeArea), DumpLatLng(x.center), Str(x.name), DumpSolarPotential(x.solarPotential, true), Str(x.regionCode), Str(x.postalCode), DumpDate(x.imageryDate), Str(x.statisticalArea), DumpLatLngBox(x.boundingBox), if x.imageryProcessedDate.Some? then Some(DumpDate(x.imageryProcessedDate.value)) else None, if x.imageryQuality.Some? then Some(Str(QualityName(x.imageryQuality.value))) else None);
  }

  // ---- the resource name --------------------------------------------------------------

  const BuildingsPrefix: string := "buildings/"

  /** Documented, not checked: the name has the format `buildings/{place_id}` with a non-empty place id. */
  predicate IsResourceName(name: string) {
    |name| > |BuildingsPrefix| && name[..|BuildingsPrefix|] == BuildingsPrefix
  }

  function ResourceName(placeId: string): (name: string)
    ensures |name| == |BuildingsPrefix| + |placeId|
  {
    BuildingsPrefix + placeId
  }

  function PlaceId(name: string): (placeId: string)
    requires IsResourceName(name)
    ensures ResourceName(placeId) == name
  {
    assert name == name[..|BuildingsPrefix|] + name[|BuildingsPrefix|..];
    name[|BuildingsPrefix|..]
  }

  /** A name is a resource name exactly when it is made from a non-empty place id, which it gives back. */
  lemma ResourceNameRoundTrip(placeId: string)
    ensures IsResourceName(ResourceName(placeId)) <==> placeId != []
    ensures placeId != [] ==> PlaceId(ResourceName(placeId)) == placeId
  {
    var name := ResourceName(placeId);
    assert name[..|BuildingsPrefix|] == BuildingsPrefix;
    if placeId != [] {
      assert name[|BuildingsPrefix|..] == placeId;
    }
  }
}
