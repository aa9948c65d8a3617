/** The request parameters of solar_api_mock/core/properties/request_params.py.

    Construction of a parameter object validates the declared fields from the
    keyword arguments, builds the object, and then runs the after-validator
    `fill_optional_values`, which fills the unset optional fields with their
    defaults by assigning to the object's own fields. The classes below keep
    those fields and fill them in place; the `...Query` values are the same
    fields as a value, which the specification functions are stated on.

    Both validators, as written, fail: the one of `BuildingInsightsParams`
    assigns to `requiredQuality`, which is not a declared field, and the one of
    `DataLayersParams` reads `pixel_size_meters`, while the field is declared as
    `pixel_size_numbers`. Each validator is modelled as written and as intended;
    the construction used elsewhere is the intended one. */
module Params {
  import opened Wrappers
  import opened Json
  import opened Common

  // ---- the view selector --------------------------------------------------------------

  datatype DataLayerView =
    | ViewUnspecified
    | DsmLayer
    | ImageryLayers
    | ImageryAndAnnualFluxLayers
    | ImageryAndAllFluxLayers
    | FullLayers

  function ViewName(w: DataLayerView): string {
    match w
    case ViewUnspecified => "DATA_LAYER_VIEW_UNSPECIFIED"
    case DsmLayer => "DSM_LAYER"
    case ImageryLayers => "IMAGERY_LAYERS"
    case ImageryAndAnnualFluxLayers => "IMAGERY_AND_ANNUAL_FLUX_LAYERS"
    case ImageryAndAllFluxLayers => "IMAGERY_AND_ALL_FLUX_LAYERS"
    case FullLayers => "FULL_LAYERS"
  }

  const ViewNames: set<string> := {
    "DATA_LAYER_VIEW_UNSPECIFIED", "DSM_LAYER", "IMAGERY_LAYERS", "IMAGERY_AND_ANNUAL_FLUX_LAYERS",
    "IMAGERY_AND_ALL_FLUX_LAYERS", "FULL_LAYERS"}

  /** The `Literal[...]` check of `view`: exactly one of the six names. */
  function ParseView(v: Value): (r: Parsed<DataLayerView>)
    ensures r.Ok? <==> v.Str? && v.s in ViewNames
    ensures r.Ok? ==> v == Str(ViewName(r.value))
  {
    if !v.Str? then Fail(LiteralError)
    else if v.s == "DATA_LAYER_VIEW_UNSPECIFIED" then Ok(ViewUnspecified)
    else if v.s == "DSM_LAYER" then Ok(DsmLayer)
    else if v.s == "IMAGERY_LAYERS" then Ok(ImageryLayers)
    else if v.s == "IMAGERY_AND_ANNUAL_FLUX_LAYERS" then Ok(ImageryAndAnnualFluxLayers)
    else if v.s == "IMAGERY_AND_ALL_FLUX_LAYERS" then Ok(ImageryAndAllFluxLayers)
    else if v.s == "FULL_LAYERS" then Ok(FullLayers)
    else Fail(LiteralError)
  }

  lemma ViewRoundTrip(w: DataLayerView)
    ensures ParseView(Str(ViewName(w))) == Ok(w)
  {
  }

  // ---- how construction fails -------------------------------------------------------------

  /** What an after-validator can raise on its object: assigning to a name that is
      not a declared field raises `ValueError`; reading one raises `AttributeError`. */
  datatype FillError = SetsUndeclared(name: string) | ReadsUndeclared(name: string)

  /** The failure of a construction: a validation error, or an `AttributeError`
      that escapes construction unconverted. */
  datatype Failure = Invalid(error: ValidationError) | AttributeMissing(name: string)

  /** A `ValueError` raised by the validator is reported as a validation error of
      the whole object; an `AttributeError` propagates as it is. */
  function FillFailure(e: FillError): (f: Failure)
    ensures f.Invalid? <==> e.SetsUndeclared?
    ensures f.Invalid? ==> f.error == ValidationError([], ValueError)
    ensures f.AttributeMissing? ==> f.name == e.name
  {
    match e
    case SetsUndeclared(_) => Invalid(ValidationError([], ValueError))
    case ReadsUndeclared(name) => AttributeMissing(name)
  }

  /** The value of one attribute of a parameter object, by the type of its field. */
  datatype AttrValue =
    | LatLngValue(latLng: LatLng)
    | IntValue(i: int)
    | ViewValue(view: Option<DataLayerView>)
    | QualityValue(quality: Option<ImageryQuality>)
    | RealValue(x: Option<real>)
    | FlagValue(flag: Option<bool>)

  /** The attributes of a parameter object by name. A pydantic model object has
      exactly its declared fields as attributes. */
  type Attributes = map<string, AttrValue>

  /** Reading `self.<name>`: a declared field gives its value, any other name raises. */
  function GetAttribute(attrs: Attributes, name: string): (r: Result<AttrValue, FillError>)
    ensures r.Ok? <==> name in attrs
    ensures r.Ok? ==> r.value == attrs[name]
    ensures r.Err? ==> r.error == ReadsUndeclared(name)
  {
    if name in attrs then Ok(attrs[name]) else Err(ReadsUndeclared(name))
  }

  /** Assigning `self.<name> = a`: a declared field takes the value and no other
      attribute changes; any other name raises. */
  function SetAttribute(attrs: Attributes, name: string, a: AttrValue): (r: Result<Attributes, FillError>)
    ensures r.Ok? <==> name in attrs
    ensures r.Ok? ==> r.value.Keys == attrs.Keys && r.value[name] == a
    ensures r.Ok? ==> forall n :: n in attrs && n != name ==> r.value[n] == attrs[n]
    ensures r.Err? ==> r.error == SetsUndeclared(name)
  {
    if name in attrs then Ok(attrs[name := a]) else Err(SetsUndeclared(name))
  }

  /** The quality a request restricts to when it names none. */
  const DefaultQuality: ImageryQuality := High

  // ---- BuildingInsightsParams -------------------------------------------------------------

  /** The declared fields of a `BuildingInsightsParams`. */
  datatype BuildingInsightsQuery = BuildingInsightsQuery(latLon: LatLng, requiredQuality: Option<ImageryQuality>)

  /** Validation of the declared fields: `lat_lon` is required and bounded,
      `required_quality` may be left out and is one of the five names otherwise. */
  function ParseBuildingInsightsQuery(v: Value): (r: Parsed<BuildingInsightsQuery>)
    ensures !v.Obj? ==> r == Err(ValidationError([], ModelType))
    ensures v.Obj? ==> (r.Ok? <==>
      Key.lat_lon in v.fields && ParseLatLng(v.fields[Key.lat_lon]).Ok?
      && (Key.required_quality in v.fields ==> ParseQuality(v.fields[Key.required_quality]).Ok?))
    ensures r.Ok? ==> r.value.latLon.Valid() && Ok(r.value.latLon) == ParseLatLng(v.fields[Key.lat_lon])
    ensures r.Ok? ==> (r.value.requiredQuality.Some? <==> Key.required_quality in v.fields)
    ensures r.Ok? && r.value.requiredQuality.Some? ==>
      Ok(r.value.requiredQuality.value) == ParseQuality(v.fields[Key.required_quality])
  {
    if !v.Obj? then Fail(ModelType)
    else
      var m := v.fields;
      var latLon :- Required(m, Key.lat_lon, ParseLatLng);
      var requiredQuality :- Optional(m, Key.required_quality, ParseQuality);
      Ok(BuildingInsightsQuery(latLon, requiredQuality))
  }

  /** The intended fill: an unset quality becomes HIGH, a given one is kept. */
  function FillBuildingInsightsQuery(q: BuildingInsightsQuery): (r: BuildingInsightsQuery)
    ensures r.latLon == q.latLon && r.requiredQuality.Some?
    ensures q.requiredQuality.Some? ==> r == q
    ensures q.requiredQuality.None? ==> r.requiredQuality == Some(High)
  {
    q.(requiredQuality := Some(q.requiredQuality.GetOr(DefaultQuality)))
  }

  /** The attribute names of a `BuildingInsightsParams`. */
  const BuildingInsightsFieldNames: set<string> := {"lat_lon", "required_quality"}

  /** The name the validator assigns the default quality to, as written. */
  const QualityTargetAsWritten: string := "requiredQuality"

  function BuildingInsightsAttributes(q: BuildingInsightsQuery): (attrs: Attributes)
    ensures attrs.Keys == BuildingInsightsFieldNames
  {
    map["lat_lon" := LatLngValue(q.latLon), "required_quality" := QualityValue(q.requiredQuality)]
  }

  /** `fill_optional_values` of `BuildingInsightsParams` on the attributes: it reads
      `required_quality` and, when that is unset, assigns HIGH to `target`. It fails
      exactly when a name it touches is not an attribute, and adds none. */
  function FillBuildingInsightsAttributes(attrs: Attributes, target: string): (r: Result<Attributes, FillError>)
    ensures r.Err? <==>
      ("required_quality" !in attrs || (attrs["required_quality"] == QualityValue(None) && target !in attrs))
    ensures r.Err? ==> r.error.name !in attrs
    ensures r.Ok? ==> r.value.Keys == attrs.Keys
  {
    var quality :- GetAttribute(attrs, "required_quality");
    if quality == QualityValue(None) then SetAttribute(attrs, target, QualityValue(Some(DefaultQuality)))
    else Ok(attrs)
  }

  /** As written, the fill raises on assigning the undeclared `requiredQuality`
      exactly when no quality is given, and otherwise changes nothing. */
  lemma QualityFillAsWritten(q: BuildingInsightsQuery)
    ensures QualityTargetAsWritten !in BuildingInsightsFieldNames
    ensures var r := FillBuildingInsightsAttributes(BuildingInsightsAttributes(q), QualityTargetAsWritten);
      (r.Err? <==> q.requiredQuality.None?)
      && (r.Err? ==> r.error == SetsUndeclared(QualityTargetAsWritten))
      && (r.Ok? ==> r.value == BuildingInsightsAttributes(q))
  {
  }

  /** Assigning the declared `required_quality` instead, the fill on the attributes
      is the intended fill. */
  lemma QualityFillAsIntended(q: BuildingInsightsQuery)
    ensures FillBuildingInsightsAttributes(BuildingInsightsAttributes(q), "required_quality")
      == Ok(BuildingInsightsAttributes(FillBuildingInsightsQuery(q)))
  {
    var attrs := BuildingInsightsAttributes(q);
    assert attrs["required_quality"] == QualityValue(q.requiredQuality);
    if q.requiredQuality.None? {
      assert attrs["required_quality" := QualityValue(Some(DefaultQuality))]
        == BuildingInsightsAttributes(FillBuildingInsightsQuery(q));
    }
  }

  class BuildingInsightsParams {
    var latLon: LatLng
    var requiredQuality: Option<ImageryQuality>

    function Query(): BuildingInsightsQuery
      reads this
    {
      BuildingInsightsQuery(latLon, requiredQuality)
    }

    constructor (q: BuildingInsightsQuery)
      ensures Query() == q
    {
      latLon := q.latLon;
      requiredQuality := q.requiredQuality;
    }

    function Attributes(): Attributes
      reads this
    {
      BuildingInsightsAttributes(Query())
    }

    /** `fill_optional_values` as written: the assignment raises before any declared
        field changes, and with a quality given nothing changes. */
    method FillOptionalValuesAsWritten() returns (e: Option<FillError>)
      ensures var f := FillBuildingInsightsAttributes(Attributes(), QualityTargetAsWritten);
        (e.None? <==> f.Ok?) && (e.Some? ==> e.value == f.error) && (f.Ok? ==> f.value == Attributes())
    {
      e := None;
      if requiredQuality.None? {
        var assignment := SetAttribute(Attributes(), QualityTargetAsWritten, QualityValue(Some(DefaultQuality)));
        e := if assignment.Err? then Some(assignment.error) else None;
      }
    }

    /** `fill_optional_values` as intended: the unset quality becomes HIGH, in place. */
    method FillOptionalValues()
      modifies this
      ensures Query() == FillBuildingInsightsQuery(old(Query()))
    {
      if requiredQuality.None? {
        requiredQuality := Some(DefaultQuality);
      }
    }
  }

  /** `BuildingInsightsParams(**v)` with the validator as written. */
  method NewBuildingInsightsParamsAsWritten(v: Value) returns (r: Result<BuildingInsightsParams, Failure>)
    ensures ParseBuildingInsightsQuery(v).Err? ==> r == Err(Invalid(ParseBuildingInsightsQuery(v).error))
    ensures ParseBuildingInsightsQuery(v).Ok? ==>
      var f := FillBuildingInsightsAttributes(BuildingInsightsAttributes(ParseBuildingInsightsQuery(v).value), QualityTargetAsWritten);
      (r.Ok? <==> f.Ok?) && (r.Err? ==> r.error == FillFailure(f.error))
      && (r.Ok? ==> fresh(r.value) && r.value.Attributes() == f.value)
  {
    var q := ParseBuildingInsightsQuery(v);
    if q.Err? {
      return Err(Invalid(q.error));
    }
    var p := new BuildingInsightsParams(q.value);
    var e := p.FillOptionalValuesAsWritten();
    if e.Some? {
      return Err(FillFailure(e.value));
    }
    return Ok(p);
  }

  /** `BuildingInsightsParams(**v)` with the validator as intended: it fails exactly
      when a field does not validate. */
  method NewBuildingInsightsParams(v: Value) returns (r: Result<BuildingInsightsParams, Failure>)
    ensures r.Ok? <==> ParseBuildingInsightsQuery(v).Ok?
    ensures r.Err? ==> r.error == Invalid(ParseBuildingInsightsQuery(v).error)
    ensures r.Ok? ==> fresh(r.value) && r.value.Query() == FillBuildingInsightsQuery(ParseBuildingInsightsQuery(v).value)
  {
    var q := ParseBuildingInsightsQuery(v);
    if q.Err? {
      return Err(Invalid(q.error));
    }
    var p := new BuildingInsightsParams(q.value);
    p.FillOptionalValues();
    return Ok(p);
  }

  /** As written, every request that leaves out `required_quality` fails to construct
      with a validation error, although its fields are all valid. */
  lemma OmittedQualityFailsAsWritten(m: map<Key, Value>)
    requires Key.lat_lon in m && ParseLatLng(m[Key.lat_lon]).Ok? && Key.required_quality !in m
    ensures ParseBuildingInsightsQuery(Obj(m)).Ok?
    ensures FillBuildingInsightsAttributes(BuildingInsightsAttributes(ParseBuildingInsightsQuery(Obj(m)).value), QualityTargetAsWritten)
      == Err(SetsUndeclared(QualityTargetAsWritten))
    ensures FillFailure(SetsUndeclared(QualityTargetAsWritten)) == Invalid(ValidationError([], ValueError))
  {
    QualityFillAsWritten(ParseBuildingInsightsQuery(Obj(m)).value);
  }

  /** As intended, leaving out `required_quality` gives the same parameters as passing "HIGH". */
  lemma {:induction false} OmittedQualityIsHigh(m: map<Key, Value>)
    requires Key.required_quality !in m
    ensures var omitted := ParseBuildingInsightsQuery(Obj(m));
      var high := ParseBuildingInsightsQuery(Obj(m[Key.required_quality := Str("HIGH")]));
      omitted.Ok? <==> high.Ok?
    ensures var omitted := ParseBuildingInsightsQuery(Obj(m));
      var high := ParseBuildingInsightsQuery(Obj(m[Key.required_quality := Str("HIGH")]));
      omitted.Ok? ==> FillBuildingInsightsQuery(omitted.value) == FillBuildingInsightsQuery(high.value)
  {
    var m' := m[Key.required_quality := Str("HIGH")];
    assert ParseQuality(Str("HIGH")) == Ok(High);
    assert Key.lat_lon in m ==> m'[Key.lat_lon] == m[Key.lat_lon];
  }

  /** Filling twice is filling once, and it never overwrites a given quality. */
  lemma BuildingInsightsFillIdempotent(q: BuildingInsightsQuery)
    ensures FillBuildingInsightsQuery(FillBuildingInsightsQuery(q)) == FillBuildingInsightsQuery(q)
    ensures q.requiredQuality.Some? ==> FillBuildingInsightsQuery(q).requiredQuality == q.requiredQuality
  {
  }

  // ---- DataLayersParams -------------------------------------------------------------------

  /** The declared fields of a `DataLayersParams`; the pixel size is in metres. */
  datatype DataLayersQuery = DataLayersQuery(
    location: LatLng,
    radiusMeter: int,
    view: Option<DataLayerView>,
    requiredQuality: Option<ImageryQuality>,
    pixelSizeNumbers: Option<real>,
    exactQualityRequired: Option<bool>)

  /** The pixel size a request asks for when it names none. */
  const DefaultPixelSize: real := 0.1

  /** Validation of the declared fields: `location` and `radius_meter` are required,
      the other four may be left out and are type-checked when given. No bound is
      declared on the radius or on the pixel size. */
  function ParseDataLayersQuery(v: Value): (r: Parsed<DataLayersQuery>)
    ensures !v.Obj? ==> r == Err(ValidationError([], ModelType))
    ensures v.Obj? ==> (r.Ok? <==>
      Key.location in v.fields && ParseLatLng(v.fields[Key.location]).Ok?
      && Key.radius_meter in v.fields && AsInt(v.fields[Key.radius_meter]).Ok?
      && (Key.view in v.fields ==> ParseView(v.fields[Key.view]).Ok?)
      && (Key.required_quality in v.fields ==> ParseQuality(v.fields[Key.required_quality]).Ok?)
      && (Key.pixel_size_numbers in v.fields ==> v.fields[Key.pixel_size_numbers].Num?)
      && (Key.exact_quality_required in v.fields ==> v.fields[Key.exact_quality_required].Bool?))
    ensures r.Ok? ==> r.value.location.Valid() && Ok(r.value.location) == ParseLatLng(v.fields[Key.location])
    ensures r.Ok? ==> r.value.radiusMeter as real == v.fields[Key.radius_meter].n
    ensures r.Ok? ==> (r.value.view.Some? <==> Key.view in v.fields)
    ensures r.Ok? ==> (r.value.requiredQuality.Some? <==> Key.required_quality in v.fields)
    ensures r.Ok? ==> (r.value.pixelSizeNumbers.Some? <==> Key.pixel_size_numbers in v.fields)
    ensures r.Ok? ==> (r.value.exactQualityRequired.Some? <==> Key.exact_quality_required in v.fields)
  {
    if !v.Obj? then Fail(ModelType)
    else
      var m := v.fields;
      var location :- Required(m, Key.location, ParseLatLng);
      var radiusMeter :- Required(m, Key.radius_meter, AsInt);
      var view :- Optional(m, Key.view, ParseView);
      var requiredQuality :- Optional(m, Key.required_quality, ParseQuality);
      var pixelSizeNumbers :- Optional(m, Key.pixel_size_numbers, AsFloat);
      var exactQualityRequired :- Optional(m, Key.exact_quality_required, AsBool);
      Ok(DataLayersQuery(location, radiusMeter, view, requiredQuality, pixelSizeNumbers, exactQualityRequired))
  }

  /** The intended fill: quality HIGH, pixel size 0.1 and inexact quality where unset;
      given values and the other fields are kept. */
  function FillDataLayersQuery(q: DataLayersQuery): (r: DataLayersQuery)
    ensures r.location == q.location && r.radiusMeter == q.radiusMeter && r.view == q.view
    ensures r.requiredQuality == Some(if q.requiredQuality.Some? then q.requiredQuality.value else High)
    ensures r.pixelSizeNumbers == Some(if q.pixelSizeNumbers.Some? then q.pixelSizeNumbers.value else 0.1)
    ensures r.exactQualityRequired == Some(q.exactQualityRequired.Some? && q.exactQualityRequired.value)
  {
    q.(requiredQuality := Some(q.requiredQuality.GetOr(DefaultQuality)),
       pixelSizeNumbers := Some(q.pixelSizeNumbers.GetOr(DefaultPixelSize)),
       exactQualityRequired := Some(q.exactQualityRequired.GetOr(false)))
  }

  /** The attribute names of a `DataLayersParams`. */
  const DataLayersFieldNames: set<string> := {
    "location", "radius_meter", "view", "required_quality", "pixel_size_numbers", "exact_quality_required"}

  /** The name the validator reads and assigns the pixel size by, as written. */
  const PixelSizeNameAsWritten: string := "pixel_size_meters"

  function DataLayersAttributes(q: DataLayersQuery): (attrs: Attributes)
    ensures attrs.Keys == DataLayersFieldNames
  {
    map["location" := LatLngValue(q.location), "radius_meter" := IntValue(q.radiusMeter),
        "view" := ViewValue(q.view), "required_quality" := QualityValue(q.requiredQuality),
        "pixel_size_numbers" := RealValue(q.pixelSizeNumbers),
        "exact_quality_required" := FlagValue(q.exactQualityRequired)]
  }

  /** One step of a fill: reading `self.<name>` and, when it holds `unset`, assigning
      `default` to it. It fails exactly when `name` is not an attribute. */
  function FillAttribute(attrs: Attributes, name: string, unset: AttrValue, default: AttrValue): (r: Result<Attributes, FillError>)
    ensures r.Err? <==> name !in attrs
    ensures r.Err? ==> r.error == ReadsUndeclared(name)
    ensures r.Ok? ==> r.value == if attrs[name] == unset then attrs[name := default] else attrs
  {
    var current :- GetAttribute(attrs, name);
    if current == unset then SetAttribute(attrs, name, default) else Ok(attrs)
  }

  /** `fill_optional_values` of `DataLayersParams` on the attributes, in its order:
      the quality, the pixel size under the name `pixelSize`, then the exactness flag,
      each set to its default when unset. When the quality and the flag are
      attributes, it fails exactly when `pixelSize` is not one, on reading it. */
  function FillDataLayersAttributes(attrs: Attributes, pixelSize: string): (r: Result<Attributes, FillError>)
    ensures r.Err? ==> r.error.name !in attrs
    ensures r.Ok? ==> r.value.Keys == attrs.Keys
    ensures "required_quality" in attrs && "exact_quality_required" in attrs ==>
      (r.Err? <==> pixelSize !in attrs) && (r.Err? ==> r.error == ReadsUndeclared(pixelSize))
  {
    var attrs1 :- FillAttribute(attrs, "required_quality", QualityValue(None), QualityValue(Some(DefaultQuality)));
    var attrs2 :- FillAttribute(attrs1, pixelSize, RealValue(None), RealValue(Some(DefaultPixelSize)));
    FillAttribute(attrs2, "exact_quality_required", FlagValue(None), FlagValue(Some(false)))
  }

  /** As written, the fill raises on reading the undeclared `pixel_size_meters`,
      whatever the request. */
  lemma PixelSizeFillAsWritten(q: DataLayersQuery)
    ensures PixelSizeNameAsWritten !in DataLayersFieldNames
    ensures FillDataLayersAttributes(DataLayersAttributes(q), PixelSizeNameAsWritten)
      == Err(ReadsUndeclared(PixelSizeNameAsWritten))
  {
  }

  /** Under the declared name `pixel_size_numbers`, the fill on the attributes is the
      intended fill. */
  lemma PixelSizeFillAsIntended(q: DataLayersQuery)
    ensures FillDataLayersAttributes(DataLayersAttributes(q), "pixel_size_numbers")
      == Ok(DataLayersAttributes(FillDataLayersQuery(q)))
  {
    var attrs := DataLayersAttributes(q);
    var filled := FillDataLayersQuery(q);
    var attrs1 := attrs["required_quality" := QualityValue(filled.requiredQuality)];
    var attrs2 := attrs1["pixel_size_numbers" := RealValue(filled.pixelSizeNumbers)];
    if q.requiredQuality.Some? {
      assert attrs1 == attrs;
    }
    assert FillAttribute(attrs, "required_quality", QualityValue(None), QualityValue(Some(DefaultQuality))) == Ok(attrs1);
    if q.pixelSizeNumbers.Some? {
      assert attrs2 == attrs1;
    }
    assert FillAttribute(attrs1, "pixel_size_numbers", RealValue(None), RealValue(Some(DefaultPixelSize))) == Ok(attrs2);
    if q.exactQualityRequired.Some? {
      assert attrs2["exact_quality_required" := FlagValue(filled.exactQualityRequired)] == attrs2;
    }
    assert attrs2["exact_quality_required" := FlagValue(filled.exactQualityRequired)] == DataLayersAttributes(filled);
  }

  class DataLayersParams {
    var location: LatLng
    var radiusMeter: int
    var view: Option<DataLayerView>
    var requiredQuality: Option<ImageryQuality>
    var pixelSizeNumbers: Option<real>
    var exactQualityRequired: Option<bool>

    function Query(): DataLayersQuery
      reads this
    {
      DataLayersQuery(location, radiusMeter, view, requiredQuality, pixelSizeNumbers, exactQualityRequired)
    }

    constructor (q: DataLayersQuery)
      ensures Query() == q
    {
      location := q.location;
      radiusMeter := q.radiusMeter;
      view := q.view;
      requiredQuality := q.requiredQuality;
      pixelSizeNumbers := q.pixelSizeNumbers;
      exactQualityRequired := q.exactQualityRequired;
    }

    function Attributes(): Attributes
      reads this
    {
      DataLayersAttributes(Query())
    }

    /** `fill_optional_values` as written: the quality is filled in place, then the
        read of `pixel_size_meters` raises and the remaining steps never run. */
    method FillOptionalValuesAsWritten() returns (e: FillError)
      modifies this
      ensures Query() == old(Query()).(requiredQuality := Some(old(requiredQuality).GetOr(DefaultQuality)))
      ensures Err(e) == FillDataLayersAttributes(old(Attributes()), PixelSizeNameAsWritten)
    {
      if requiredQuality.None? {
        requiredQuality := Some(DefaultQuality);
      }
      var pixelSize := GetAttribute(Attributes(), PixelSizeNameAsWritten);
      e := pixelSize.error;
      PixelSizeFillAsWritten(old(Query()));
    }

    /** `fill_optional_values` as intended: each unset optional field gets its default, in place. */
    method FillOptionalValues()
      modifies this
      ensures Query() == FillDataLayersQuery(old(Query()))
    {
      if requiredQuality.None? {
        requiredQuality := Some(DefaultQuality);
      }
      if pixelSizeNumbers.None? {
        pixelSizeNumbers := Some(DefaultPixelSize);
      }
      if exactQualityRequired.None? {
        exactQualityRequired := Some(false);
      }
    }
  }

  /** `DataLayersParams(**v)` with the validator as written: it never yields an object. */
  method NewDataLayersParamsAsWritten(v: Value) returns (r: Result<DataLayersParams, Failure>)
    ensures r.Err?
    ensures ParseDataLayersQuery(v).Err? ==> r.error == Invalid(ParseDataLayersQuery(v).error)
    ensures ParseDataLayersQuery(v).Ok? ==> r.error == AttributeMissing(PixelSizeNameAsWritten)
  {
    var q := ParseDataLayersQuery(v);
    if q.Err? {
      return Err(Invalid(q.error));
    }
    var p := new DataLayersParams(q.value);
    var e := p.FillOptionalValuesAsWritten();
    return Err(FillFailure(e));
  }

  /** `DataLayersParams(**v)` with the validator as intended: it fails exactly when
      a field does not validate. */
  method NewDataLayersParams(v: Value) returns (r: Result<DataLayersParams, Failure>)
    ensures r.Ok? <==> ParseDataLayersQuery(v).Ok?
    ensures r.Err? ==> r.error == Invalid(ParseDataLayersQuery(v).error)
    ensures r.Ok? ==> fresh(r.value) && r.value.Query() == FillDataLayersQuery(ParseDataLayersQuery(v).value)
  {
    var q := ParseDataLayersQuery(v);
    if q.Err? {
      return Err(Invalid(q.error));
    }
    var p := new DataLayersParams(q.value);
    p.FillOptionalValues();
    return Ok(p);
  }

  /** Filling twice is filling once, and no given value is overwritten. */
  lemma DataLayersFillIdempotent(q: DataLayersQuery)
    ensures FillDataLayersQuery(FillDataLayersQuery(q)) == FillDataLayersQuery(q)
    ensures q.requiredQuality.Some? ==> FillDataLayersQuery(q).requiredQuality == q.requiredQuality
    ensures q.pixelSizeNumbers.Some? ==> FillDataLayersQuery(q).pixelSizeNumbers == q.pixelSizeNumbers
    ensures q.exactQualityRequired.Some? ==> FillDataLayersQuery(q).exactQualityRequired == q.exactQualityRequired
  {
  }

  /** As intended, leaving out the quality or the pixel size gives the same parameters
      as passing "HIGH" or 0.1. */
  lemma {:induction false} OmittedDefaultsAreExplicit(m: map<Key, Value>)
    requires Key.required_quality !in m && Key.pixel_size_numbers !in m
    ensures var omitted := ParseDataLayersQuery(Obj(m));
      var explicit := ParseDataLayersQuery(Obj(m[Key.required_quality := Str("HIGH")][Key.pixel_size_numbers := Num(0.1)]));
      (omitted.Ok? <==> explicit.Ok?)
      && (omitted.Ok? ==> FillDataLayersQuery(omitted.value) == FillDataLayersQuery(explicit.value))
  {
    var m' := m[Key.required_quality := Str("HIGH")][Key.pixel_size_numbers := Num(0.1)];
    assert ParseQuality(Str("HIGH")) == Ok(High);
    assert forall k :: k in m ==> k in m' && m'[k] == m[k];
  }

  // ---- the documented radius limits -------------------------------------------------------

  /** The pixel sizes, in metres, the API supports. */
  const SupportedPixelSizes: set<real> := {0.1, 0.25, 0.5, 1.0}

  /** The views that, by their names, leave out both the monthly flux and the hourly
      shade layers. An absent or unspecified view is not among them. */
  predicate ExcludesMonthlyAndHourly(view: Option<DataLayerView>) {
    view == Some(DsmLayer) || view == Some(ImageryLayers) || view == Some(ImageryAndAnnualFluxLayers)
  }

  /** Documented, not checked: a supported pixel size; a radius over 100 m at most the
      pixel size times 1000; a radius over 175 m only with a view without monthly
      flux and hourly shade. An unset pixel size counts as the default. */
  predicate WithinRadiusLimits(q: DataLayersQuery) {
    var pixelSize := q.pixelSizeNumbers.GetOr(DefaultPixelSize);
    pixelSize in SupportedPixelSizes
    && (q.radiusMeter > 100 ==> q.radiusMeter as real <= pixelSize * 1000.0)
    && (q.radiusMeter > 175 ==> ExcludesMonthlyAndHourly(q.view))
  }

  /** No request that keeps to the limits asks for a radius over 1000 m, and with the
      default pixel size none asks for more than 100 m. */
  lemma RadiusBounds(q: DataLayersQuery)
    requires WithinRadiusLimits(q)
    ensures q.radiusMeter <= 1000
    ensures q.pixelSizeNumbers.GetOr(DefaultPixelSize) == DefaultPixelSize ==> q.radiusMeter <= 100
  {
    var p := q.pixelSizeNumbers.GetOr(DefaultPixelSize);
    assert p == 0.1 || p == 0.25 || p == 0.5 || p == 1.0;
  }

  /** Any radius up to 100 m is allowed with a supported pixel size, whatever the view. */
  lemma SmallRadiusAllowed(q: DataLayersQuery)
    requires q.radiusMeter <= 100 && q.pixelSizeNumbers.GetOr(DefaultPixelSize) in SupportedPixelSizes
    ensures WithinRadiusLimits(q)
  {
  }

  /** The request of the route tests, radius 1000 at the default pixel size, breaks the limits. */
  lemma TestRequestBreaksLimits(location: LatLng)
    ensures !WithinRadiusLimits(DataLayersQuery(location, 1000, None, Some(High), Some(DefaultPixelSize), Some(false)))
  {
  }
}
