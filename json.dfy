/** The JSON tree that records are serialised into, and the field readers that
    record construction (pydantic validation of keyword arguments) is built from.

    A JSON object is a map from keys to values: key order is not significant.
    Numbers are exact reals; an integer is a number with no fractional part. */
module Json {
  import opened Wrappers

  datatype Value =
    | Null
    | Bool(b: bool)
    | Num(n: real)
    | Str(s: string)
    | Arr(items: seq<Value>)
    | Obj(fields: map<Key, Value>)

  /** The keys of keyword arguments and of serialised objects: each constructor
      stands for the key spelled as its name, and `Other` for any key that no
      record declares. */
  datatype Key =
    | administrativeArea
    | annualFluxUrl
    | annualLeasingCost
    | annualLoanPayment
    | areaMeters2
    | averageKwhPerMonth
    | azimuthDegrees
    | boundingBox
    | buildingStats
    | carbonOffsetFactorKgPerMwh
    | cashPurchaseSavings
    | center
    | costOfElectricityWithoutSolar
    | currencyCode
    | day
    | defaultBill
    | dsmUrl
    | exact_quality_required
    | federalIncentive
    | financedPurchaseSavings
    | financialAnalyses
    | financialDetails
    | financiallyViable
    | groundAreaMeters2
    | hourlyShadeUrls
    | imageryDate
    | imageryProcessedDate
    | imageryQuality
    | initialAcKwhPerYear
    | lat_lon
    | latitude
    | leasesAllowed
    | leasesSupported
    | leasingSavings
    | lifetimeSrecTotal
    | loanInterestRate
    | location
    | longitude
    | maskUrl
    | maxArrayAreaMeters2
    | maxArrayPanelsCount
    | maxSunshineHoursPerYear
    | month
    | monthlyBill
    | monthlyFluxUrl
    | name
    | nanos
    | ne
    | netMeteringAllowed
    | orientation
    | outOfPocketCost
    | panelCapacityWatts
    | panelConfigIndex
    | panelHeightMeters
    | panelLifetimeYears
    | panelsCount
    | panelWidthMeters
    | paybackYears
    | percentageExportedToGrid
    | pitchDegrees
    | pixel_size_numbers
    | planeHeightAtCenterMeters
    | postalCode
    | presentValueOfSavingsLifetime
    | presentValueOfSavingsYear20
    | properties
    | radius_meter
    | rebateValue
    | regionCode
    | remainingLifetimeUtilityBill
    | required_quality
    | rgbUrl
    | roofSegmentStats
    | roofSegmentSummaries
    | savings
    | savingsLifetime
    | savingsYear1
    | savingsYear20
    | segmentIndex
    | solarPanelConfigs
    | solarPanels
    | solarPercentage
    | solarPotential
    | stateIncentive
    | statisticalArea
    | stats
    | sunshineQuantiles
    | sw
    | units
    | upfrontCost
    | utilityIncentive
    | view
    | wholeRoofStats
    | year
    | yearlyEnergyDcKwh
    | Other(text: string)

  /** One step of an error location: a field name or a list position. */
  datatype LocStep = At(key: Key) | Index(i: nat)

  /** The kinds of validation failure the record classes can raise. */
  datatype ErrorKind =
    | Missing           // a required field is absent
    | ModelType         // a record was expected
    | ListType          // a list was expected
    | FloatType         // a number was expected
    | IntType           // an integer was expected
    | StringType        // a string was expected
    | BoolType          // a boolean was expected
    | GreaterThanEqual  // below the declared `ge` bound
    | LessThanEqual     // above the declared `le` bound
    | LiteralError      // not one of the allowed enumeration values
    | ValueError        // a validator of the record raised `ValueError`

  datatype ValidationError = ValidationError(loc: seq<LocStep>, kind: ErrorKind)

  type Parsed<T> = Result<T, ValidationError>

  /** No `null` anywhere in the tree. */
  predicate NoNulls(v: Value) {
    match v
    case Null => false
    case Arr(items) => forall i :: 0 <= i < |items| ==> NoNulls(items[i])
    case Obj(m) => forall k :: k in m ==> NoNulls(m[k])
    case _ => true
  }

  function Fail<T>(kind: ErrorKind): Parsed<T> {
    Err(ValidationError([], kind))
  }

  /** Prefix the location of a nested failure with the step that led to it. */
  function Within<T>(r: Parsed<T>, step: LocStep): (r': Parsed<T>)
    ensures r'.Ok? <==> r.Ok?
    ensures r.Ok? ==> r' == r
    ensures r.Err? ==> r'.error == ValidationError([step] + r.error.loc, r.error.kind)
    ensures r.Err? && r.error.loc == [] ==> r'.error.loc == [step]
  {
    match r
    case Ok(_) => r
    case Err(e) => Err(ValidationError([step] + e.loc, e.kind))
  }

  // ---- scalar readers -------------------------------------------------------

  function AsFloat(v: Value): (r: Parsed<real>)
    ensures r.Ok? <==> v.Num?
    ensures r.Ok? ==> r.value == v.n
  {
    if v.Num? then Ok(v.n) else Fail(FloatType)
  }

  predicate IsIntegral(n: real) {
    n.Floor as real == n
  }

  /** An integer field also accepts a number with a zero fractional part. */
  function AsInt(v: Value): (r: Parsed<int>)
    ensures r.Ok? <==> v.Num? && IsIntegral(v.n)
    ensures r.Ok? ==> r.value as real == v.n
  {
    if v.Num? && IsIntegral(v.n) then Ok(v.n.Floor) else Fail(IntType)
  }

  function AsStr(v: Value): (r: Parsed<string>)
    ensures r.Ok? <==> v.Str?
    ensures r.Ok? ==> r.value == v.s
  {
    if v.Str? then Ok(v.s) else Fail(StringType)
  }

  function AsBool(v: Value): (r: Parsed<bool>)
    ensures r.Ok? <==> v.Bool?
    ensures r.Ok? ==> r.value == v.b
  {
    if v.Bool? then Ok(v.b) else Fail(BoolType)
  }

  /** A number field with inclusive bounds `ge=lo`, `le=hi`. */
  function AsFloatIn(v: Value, lo: real, hi: real): (r: Parsed<real>)
    ensures r.Ok? <==> v.Num? && lo <= v.n <= hi
    ensures r.Ok? ==> r.value == v.n
  {
    var x :- AsFloat(v);
    if x < lo then Fail(GreaterThanEqual)
    else if x > hi then Fail(LessThanEqual)
    else Ok(x)
  }

  /** An integer field with inclusive bounds `ge=lo`, `le=hi`. */
  function AsIntIn(v: Value, lo: int, hi: int): (r: Parsed<int>)
    ensures r.Ok? <==> v.Num? && IsIntegral(v.n) && lo as real <= v.n <= hi as real
    ensures r.Ok? ==> r.value as real == v.n
  {
    var x :- AsInt(v);
    if x < lo then Fail(GreaterThanEqual)
    else if x > hi then Fail(LessThanEqual)
    else Ok(x)
  }

  /** A record-valued field: the value must be an object. */
  function AsRecord<T>(v: Value, p: map<Key, Value> -> Parsed<T>): (r: Parsed<T>)
    ensures !v.Obj? ==> r.Err?
    ensures v.Obj? ==> r == p(v.fields)
  {
    if v.Obj? then p(v.fields) else Fail(ModelType)
  }

  // ---- lists ---------------------------------------------------------------

  /** Validate items[i..] element by element; the first failure is reported at its index. */
  function ParseItemsFrom<T>(items: seq<Value>, p: Value -> Parsed<T>, i: nat): (r: Parsed<seq<T>>)
    requires i <= |items|
    decreases |items| - i
    ensures r.Ok? <==> forall j :: i <= j < |items| ==> p(items[j]).Ok?
    ensures r.Ok? ==> |r.value| == |items| - i
    ensures r.Ok? ==> forall j :: i <= j < |items| ==> p(items[j]) == Ok(r.value[j - i])
  {
    if i == |items| then Ok([])
    else
      var x :- Within(p(items[i]), Index(i));
      var rest :- ParseItemsFrom(items, p, i + 1);
      Ok([x] + rest)
  }

  /** A list-valued field: the value must be an array whose every element is accepted. */
  function AsList<T>(v: Value, p: Value -> Parsed<T>): (r: Parsed<seq<T>>)
    ensures r.Ok? <==> v.Arr? && forall j :: 0 <= j < |v.items| ==> p(v.items[j]).Ok?
    ensures r.Ok? ==> |r.value| == |v.items|
    ensures r.Ok? ==> forall j :: 0 <= j < |v.items| ==> p(v.items[j]) == Ok(r.value[j])
  {
    if v.Arr? then ParseItemsFrom(v.items, p, 0) else Fail(ListType)
  }

  /** A list whose every element is accepted and read back as the matching
      element of `xs` is accepted as `xs`. */
  lemma {:induction false} ListRoundTrip<T>(xs: seq<T>, items: seq<Value>, p: Value -> Parsed<T>)
    requires |items| == |xs|
    requires forall i :: 0 <= i < |xs| ==> p(items[i]) == Ok(xs[i])
    ensures AsList(Arr(items), p) == Ok(xs)
  {
    var r := AsList(Arr(items), p);
    assert r.Ok?;
    forall j | 0 <= j < |xs|
      ensures r.value[j] == xs[j]
    {
      assert p(items[j]) == Ok(r.value[j]);
    }
    assert r.value == xs;
  }

  /** A `list[float]` field. */
  function AsFloats(v: Value): (r: Parsed<seq<real>>)
    ensures r.Ok? <==> v.Arr? && forall j :: 0 <= j < |v.items| ==> v.items[j].Num?
    ensures r.Ok? ==> |r.value| == |v.items| && forall j :: 0 <= j < |v.items| ==> v.items[j] == Num(r.value[j])
  {
    AsList(v, AsFloat)
  }

  /** A `list[str]` field. */
  function AsStrs(v: Value): (r: Parsed<seq<string>>)
    ensures r.Ok? <==> v.Arr? && forall j :: 0 <= j < |v.items| ==> v.items[j].Str?
    ensures r.Ok? ==> |r.value| == |v.items| && forall j :: 0 <= j < |v.items| ==> v.items[j] == Str(r.value[j])
  {
    AsList(v, AsStr)
  }

  // ---- fields of keyword arguments ------------------------------------------

  /** A required field: absent is `Missing`, otherwise read it and locate any failure at `k`. */
  function Required<T>(m: map<Key, Value>, k: Key, p: Value -> Parsed<T>): (r: Parsed<T>)
    ensures k !in m ==> r == Err(ValidationError([At(k)], Missing))
    ensures k in m ==> r == Within(p(m[k]), At(k))
  {
    if k in m then Within(p(m[k]), At(k)) else Err(ValidationError([At(k)], Missing))
  }

  /** An optional field (`default=None`): absent is unset; a present value, `null`
      included, must satisfy the field's type. */
  function Optional<T>(m: map<Key, Value>, k: Key, p: Value -> Parsed<T>): (r: Parsed<Option<T>>)
    ensures k !in m ==> r == Ok(None)
    ensures k in m ==> (r.Ok? <==> p(m[k]).Ok?)
    ensures k in m && r.Ok? ==> r.value == Some(p(m[k]).value)
  {
    if k in m then
      var x :- Within(p(m[k]), At(k));
      Ok(Some(x))
    else Ok(None)
  }

  // ---- serialisation helpers -------------------------------------------------

  /** Serialise an optional field: set values are written; an unset one is dropped
      when `excludeNone` holds and written as `null` otherwise. */
  function PutOptional(m: map<Key, Value>, k: Key, v: Option<Value>, excludeNone: bool): map<Key, Value> {
    match v
    case Some(x) => m[k := x]
    case None => if excludeNone then m else m[k := Null]
  }

  /** Adding a null-free value to a null-free object keeps it null-free. */
  lemma NoNullsPut(m: map<Key, Value>, k: Key, v: Value)
    requires NoNulls(Obj(m)) && NoNulls(v)
    ensures NoNulls(Obj(m[k := v]))
  {
  }

  /** With unset fields dropped, an optional field keeps a null-free object null-free. */
  lemma NoNullsPutOptional(m: map<Key, Value>, k: Key, v: Option<Value>)
    requires NoNulls(Obj(m)) && (v.Some? ==> NoNulls(v.value))
    ensures NoNulls(Obj(PutOptional(m, k, v, true)))
  {
  }

  function Floats(xs: seq<real>): (r: Value)
    ensures r.Arr? && |r.items| == |xs|
    ensures NoNulls(r)
  {
    Arr(seq(|xs|, i requires 0 <= i < |xs| => Num(xs[i])))
  }

  function Strs(xs: seq<string>): (r: Value)
    ensures r.Arr? && |r.items| == |xs|
    ensures NoNulls(r)
  {
    Arr(seq(|xs|, i requires 0 <= i < |xs| => Str(xs[i])))
  }

  lemma FloatsRoundTrip(xs: seq<real>)
    ensures AsFloats(Floats(xs)) == Ok(xs)
  {
    ListRoundTrip(xs, Floats(xs).items, AsFloat);
  }

  lemma StrsRoundTrip(xs: seq<string>)
    ensures AsStrs(Strs(xs)) == Ok(xs)
  {
    ListRoundTrip(xs, Strs(xs).items, AsStr);
  }
}
