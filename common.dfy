/** The shared records of solar_api_mock/core/properties/common.py: a position,
    a bounding box, an amount of money and a whole or partial calendar date,
    each with the bounds its fields declare, plus the imagery-quality enumeration
    that several records and the request parameters share.

    `ParseX` is construction of the record from keyword arguments (validation of
    every declared field, in declaration order; undeclared keys are ignored),
    `DumpX` is its serialisation. */
module Common {
  import opened Wrappers
  import opened Json

  // ---- imagery quality -------------------------------------------------------

  datatype ImageryQuality = QualityUnspecified | High | Medium | Low | Base

  function QualityName(q: ImageryQuality): string {
    match q
    case QualityUnspecified => "IMAGERY_QUALITY_UNSPECIFIED"
    case High => "HIGH"
    case Medium => "MEDIUM"
    case Low => "LOW"
    case Base => "BASE"
  }

  const QualityNames: set<string> := {"IMAGERY_QUALITY_UNSPECIFIED", "HIGH", "MEDIUM", "LOW", "BASE"}

  /** The `Literal[...]` check: exactly one of the five names, nothing else. */
  function ParseQuality(v: Value): (r: Parsed<ImageryQuality>)
    ensures r.Ok? <==> v.Str? && v.s in QualityNames
    ensures r.Ok? ==> v == Str(QualityName(r.value))
  {
    if !v.Str? then Fail(LiteralError)
    else if v.s == "IMAGERY_QUALITY_UNSPECIFIED" then Ok(QualityUnspecified)
    else if v.s == "HIGH" then Ok(High)
    else if v.s == "MEDIUM" then Ok(Medium)
    else if v.s == "LOW" then Ok(Low)
    else if v.s == "BASE" then Ok(Base)
    else Fail(LiteralError)
  }

  lemma QualityRoundTrip(q: ImageryQuality)
    ensures ParseQuality(Str(QualityName(q))) == Ok(q)
  {
  }

  lemma UltraIsNotAQuality()
    ensures ParseQuality(Str("ULTRA")) == Err(ValidationError([], LiteralError))
  {
  }

  // ---- LatLng ------------------------------------------------------------------

  datatype LatLng = LatLng(longitude: real, latitude: real) {
    /** The declared bounds: `ge=-180.0, le=180.0` and `ge=-90.0, le=90.0`. */
    predicate Valid() {
      -180.0 <= longitude <= 180.0 && -90.0 <= latitude <= 90.0
    }
  }

  /** The fields of `LatLng` that have no default. */
  const LatLngFields: set<Key> := {Key.longitude, Key.latitude}

  /** Construction of a `LatLng` from keyword arguments: every declared field in
      declaration order, the first failure reported at its field. */
  function ParseLatLng(v: Value): (r: Parsed<LatLng>)
    ensures !v.Obj? ==> r == Err(ValidationError([], ModelType))
    ensures r.Ok? ==> r.value.Valid()
  {
    if !v.Obj? then Fail(ModelType)
    else
      var m := v.fields;
      var longitude :- Required(m, Key.longitude, x => AsFloatIn(x, -180.0, 180.0));
      var latitude :- Required(m, Key.latitude, x => AsFloatIn(x, -90.0, 90.0));
      Ok(LatLng(longitude, latitude))
  }

  /** The keyword arguments `m` construct exactly `x`: each field without a default is
      present and reads as `x`'s value,
      and any other key is ignored. */
  predicate LatLngAccepts(m: map<Key, Value>, x: LatLng) {
    Key.longitude in m && AsFloatIn(m[Key.longitude], -180.0, 180.0) == Ok(x.longitude)
    && Key.latitude in m && AsFloatIn(m[Key.latitude], -90.0, 90.0) == Ok(x.latitude)
  }

  lemma LatLngFromAccepted(m: map<Key, Value>, x: LatLng)
    requires LatLngAccepts(m, x)
    ensures ParseLatLng(Obj(m)) == Ok(x)
  {
  }

  lemma LatLngAcceptedFrom(v: Value)
    requires ParseLatLng(v).Ok?
    ensures v.Obj? && LatLngAccepts(v.fields, ParseLatLng(v).value)
  {
  }

  /** The object of already-serialised field values. */
  function LatLngObject(longitude: Value, latitude: Value): map<Key, Value> {
    map[Key.longitude := longitude, Key.latitude := latitude]
  }

  lemma LatLngObjectFields(longitude: Value, latitude: Value)
    ensures var m := LatLngObject(longitude, latitude);
      Key.longitude in m && m[Key.longitude] == longitude
      && Key.latitude in m && m[Key.latitude] == latitude
  {
  }

  lemma LatLngObjectKeys(longitude: Value, latitude: Value)
    ensures LatLngObject(longitude, latitude).Keys == LatLngFields
  {
  }

  lemma LatLngObjectNoNulls(longitude: Value, latitude: Value)
    requires NoNulls(longitude) && NoNulls(latitude)
    ensures NoNulls(Obj(LatLngObject(longitude, latitude)))
  {
    var m0: map<Key, Value> := map[];
    NoNullsPut(m0, Key.longitude, longitude);
    var m1 := m0[Key.longitude := longitude];
    NoNullsPut(m1, Key.latitude, latitude);
    var m2 := m1[Key.latitude := latitude];
  }

  /** An object whose serialised field values read back as `x`'s fields constructs `x`. */
  lemma LatLngFromObject(x: LatLng, longitude: Value, latitude: Value)
    requires AsFloatIn(longitude, -180.0, 180.0) == Ok(x.longitude)
      && AsFloatIn(latitude, -90.0, 90.0) == Ok(x.latitude)
    ensures ParseLatLng(Obj(LatLngObject(longitude, latitude))) == Ok(x)
  {
    LatLngObjectFields(longitude, latitude);
    LatLngFromAccepted(LatLngObject(longitude, latitude), x);
  }

  /** Serialisation of a `LatLng`. */
  function DumpLatLng(x: LatLng): (r: Value)
    ensures r.Obj?
  {
    Obj(LatLngObject(Num(x.longitude), Num(x.latitude)))
  }

  /** The serialised object has exactly the declared keys. */
  lemma DumpLatLngKeys(x: LatLng)
    ensures DumpLatLng(x).fields.Keys == LatLngFields
  {
    LatLngObjectKeys(Num(x.longitude), Num(x.latitude));
  }

  /** With unset fields dropped, no `null` appears anywhere in the serialised tree. */
  lemma DumpLatLngNoNulls(x: LatLng)
    ensures NoNulls(DumpLatLng(x))
  {
    LatLngObjectNoNulls(Num(x.longitude), Num(x.latitude));
  }

  /** Serialising with unset fields dropped and constructing again gives back the same record. */
  lemma LatLngRoundTrip(x: LatLng)
    requires x.Valid()
    ensures ParseLatLng(DumpLatLng(x)) == Ok(x)
  {
    LatLngFromObject(x, Num(x.longitude), Num(x.latitude));
  }

  /** The keyword arguments `latitude=lat, longitude=lng`. */
  function LatLngArgs(lat: real, lng: real): Value {
    Obj(map[Key.latitude := Num(lat), Key.longitude := Num(lng)])
  }

  /** A position is accepted exactly when both coordinates are within their closed ranges. */
  lemma LatLngAcceptance(lat: real, lng: real)
    ensures ParseLatLng(LatLngArgs(lat, lng)).Ok? <==> -90.0 <= lat <= 90.0 && -180.0 <= lng <= 180.0
    ensures ParseLatLng(LatLngArgs(lat, lng)).Ok? ==> ParseLatLng(LatLngArgs(lat, lng)).value == LatLng(lng, lat)
  {
  }

  /** Both ends of each range are accepted; one degree past them is not, and the
      failure names the field and the bound. */
  lemma LatLngEdges()
    ensures ParseLatLng(LatLngArgs(90.0, 180.0)).Ok?
    ensures ParseLatLng(LatLngArgs(-90.0, -180.0)).Ok?
    ensures ParseLatLng(LatLngArgs(91.0, 0.0)) == Err(ValidationError([At(Key.latitude)], LessThanEqual))
    ensures ParseLatLng(LatLngArgs(0.0, 181.0)) == Err(ValidationError([At(Key.longitude)], LessThanEqual))
    ensures ParseLatLng(LatLngArgs(-91.0, 0.0)) == Err(ValidationError([At(Key.latitude)], GreaterThanEqual))
  {
  }

  // ---- LatLngBox ---------------------------------------------------------------

  datatype LatLngBox = LatLngBox(ne: LatLng, sw: LatLng) {
    predicate Valid() {
      ne.Valid() && sw.Valid()
    }
  }

  /** The fields of `LatLngBox` that have no default. */
  const LatLngBoxFields: set<Key> := {Key.ne, Key.sw}

  /** Construction of a `LatLngBox` from keyword arguments: every declared field in
      declaration order, the first failure reported at its field. */
  function ParseLatLngBox(v: Value): (r: Parsed<LatLngBox>)
    ensures !v.Obj? ==> r == Err(ValidationError([], ModelType))
    ensures r.Ok? ==> r.value.Valid()
  {
    if !v.Obj? then Fail(ModelType)
    else
      var m := v.fields;
      var ne :- Required(m, Key.ne, ParseLatLng);
      var sw :- Required(m, Key.sw, ParseLatLng);
      Ok(LatLngBox(ne, sw))
  }

  /** The keyword arguments `m` construct exactly `x`: each field without a default is
      present and reads as `x`'s value,
      and any other key is ignored. */
  predicate LatLngBoxAccepts(m: map<Key, Value>, x: LatLngBox) {
    Key.ne in m && ParseLatLng(m[Key.ne]) == Ok(x.ne)
    && Key.sw in m && ParseLatLng(m[Key.sw]) == Ok(x.sw)
  }

  lemma LatLngBoxFromAccepted(m: map<Key, Value>, x: LatLngBox)
    requires LatLngBoxAccepts(m, x)
    ensures ParseLatLngBox(Obj(m)) == Ok(x)
  {
  }

  lemma LatLngBoxAcceptedFrom(v: Value)
    requires ParseLatLngBox(v).Ok?
    ensures v.Obj? && LatLngBoxAccepts(v.fields, ParseLatLngBox(v).value)
  {
  }

  /** The object of already-serialised field values. */
  function LatLngBoxObject(ne: Value, sw: Value): map<Key, Value> {
    map[Key.ne := ne, Key.sw := sw]
  }

  lemma LatLngBoxObjectFields(ne: Value, sw: Value)
    ensures var m := LatLngBoxObject(ne, sw);
      Key.ne in m && m[Key.ne] == ne
      && Key.sw in m && m[Key.sw] == sw
  {
  }

  lemma LatLngBoxObjectKeys(ne: Value, sw: Value)
    ensures LatLngBoxObject(ne, sw).Keys == LatLngBoxFields
  {
  }

  lemma LatLngBoxObjectNoNulls(ne: Value, sw: Value)
    requires NoNulls(ne) && NoNulls(sw)
    ensures NoNulls(Obj(LatLngBoxObject(ne, sw)))
  {
    var m0: map<Key, Value> := map[];
    NoNullsPut(m0, Key.ne, ne);
    var m1 := m0[Key.ne := ne];
    NoNullsPut(m1, Key.sw, sw);
    var m2 := m1[Key.sw := sw];
  }

  /** An object whose serialised field values read back as `x`'s fields constructs `x`. */
  lemma LatLngBoxFromObject(x: LatLngBox, ne: Value, sw: Value)
    requires ParseLatLng(ne) == Ok(x.ne)
      && ParseLatLng(sw) == Ok(x.sw)
    ensures ParseLatLngBox(Obj(LatLngBoxObject(ne, sw))) == Ok(x)
  {
    LatLngBoxObjectFields(ne, sw);
    LatLngBoxFromAccepted(LatLngBoxObject(ne, sw), x);
  }

  /** Serialisation of a `LatLngBox`. */
  function DumpLatLngBox(x: LatLngBox): (r: Value)
    ensures r.Obj?
  {
    Obj(LatLngBoxObject(DumpLatLng(x.ne), DumpLatLng(x.sw)))
  }

  /** The serialised object has exactly the declared keys. */
  lemma DumpLatLngBoxKeys(x: LatLngBox)
    ensures DumpLatLngBox(x).fields.Keys == LatLngBoxFields
  {
    LatLngBoxObjectKeys(DumpLatLng(x.ne), DumpLatLng(x.sw));
  }

  /** With unset fields dropped, no `null` appears anywhere in the serialised tree. */
  lemma DumpLatLngBoxNoNulls(x: LatLngBox)
    ensures NoNulls(DumpLatLngBox(x))
  {
    DumpLatLngNoNulls(x.ne);
    DumpLatLngNoNulls(x.sw);
    LatLngBoxObjectNoNulls(DumpLatLng(x.ne), DumpLatLng(x.sw));
  }

  /** Serialising with unset fields dropped and constructing again gives back the same record. */
  lemma LatLngBoxRoundTrip(x: LatLngBox)
    requires x.Valid()
    ensures ParseLatLngBox(DumpLatLngBox(x)) == Ok(x)
  {
    LatLngRoundTrip(x.ne);
    LatLngRoundTrip(x.sw);
    LatLngBoxFromObject(x, DumpLatLng(x.ne), DumpLatLng(x.sw));
  }

  /** A box is accepted exactly when both corners are given and both are accepted. */
  lemma LatLngBoxAcceptance(ne: Value, sw: Value)
    ensures ParseLatLngBox(Obj(map[Key.ne := ne, Key.sw := sw])).Ok? <==> ParseLatLng(ne).Ok? && ParseLatLng(sw).Ok?
    ensures ParseLatLng(ne).Ok? ==> ParseLatLngBox(Obj(map[Key.ne := ne])) == Err(ValidationError([At(Key.sw)], Missing))
  {
  }

  /** Keyword arguments that the box does not declare have no effect on it. */
  lemma LatLngBoxIgnoresUndeclared(m: map<Key, Value>, extra: map<Key, Value>)
    requires extra.Keys !! LatLngBoxFields
    ensures ParseLatLngBox(Obj(m + extra)) == ParseLatLngBox(Obj(m))
  {
  }

  // ---- Money -------------------------------------------------------------------

  const NanosBound := 999_999_999

  datatype Money = Money(nanos: Option<int>, units: string, currencyCode: string) {
    /** The declared bound on `nanos` when it is set; `units` and `currencyCode` are unconstrained strings. */
    predicate Valid() {
      nanos.Some? ==> -NanosBound <= nanos.value <= NanosBound
    }
  }

  /** The fields of `Money` that have no default. */
  const MoneyFields: set<Key> := {Key.units, Key.currencyCode}
  /** The fields of `Money` that default to unset. */
  const MoneyOptionalFields: set<Key> := {Key.nanos}

  /** Construction of a `Money` from keyword arguments: every declared field in
      declaration order, the first failure reported at its field. */
  function ParseMoney(v: Value): (r: Parsed<Money>)
    ensures !v.Obj? ==> r == Err(ValidationError([], ModelType))
    ensures r.Ok? ==> r.value.Valid()
  {
    if !v.Obj? then Fail(ModelType)
    else
      var m := v.fields;
      var nanos :- Optional(m, Key.nanos, x => AsIntIn(x, -NanosBound, NanosBound));
      var units :- Required(m, Key.units, AsStr);
      var currencyCode :- Required(m, Key.currencyCode, AsStr);
      Ok(Money(nanos, units, currencyCode))
  }

  /** The keyword arguments `m` construct exactly `x`: each field without a default is
      present and reads as `x`'s value, each defaulted field is absent when `x` leaves it unset,
      and any other key is ignored. */
  predicate MoneyAccepts(m: map<Key, Value>, x: Money) {
    (if x.nanos.Some? then Key.nanos in m && AsIntIn(m[Key.nanos], -NanosBound, NanosBound) == Ok(x.nanos.value) else Key.nanos !in m)
    && Key.units in m && AsStr(m[Key.units]) == Ok(x.units)
    && Key.currencyCode in m && AsStr(m[Key.currencyCode]) == Ok(x.currencyCode)
  }

  lemma MoneyFromAccepted(m: map<Key, Value>, x: Money)
    requires MoneyAccepts(m, x)
    ensures ParseMoney(Obj(m)) == Ok(x)
  {
  }

  lemma MoneyAcceptedFrom(v: Value)
    requires ParseMoney(v).Ok?
    ensures v.Obj? && MoneyAccepts(v.fields, ParseMoney(v).value)
  {
  }

  /** The object of already-serialised field values. */
  function MoneyObject(units: Value, currencyCode: Value, nanos: Option<Value>, excludeNone: bool): map<Key, Value> {
    PutOptional(map[Key.units := units, Key.currencyCode := currencyCode], Key.nanos, nanos, excludeNone)
  }

  lemma MoneyObjectFields(units: Value, currencyCode: Value, nanos: Option<Value>, excludeNone: bool)
    ensures var m := MoneyObject(units, currencyCode, nanos, excludeNone);
      Key.units in m && m[Key.units] == units
      && Key.currencyCode in m && m[Key.currencyCode] == currencyCode
      && (Key.nanos in m <==> nanos.Some? || !excludeNone)
      && (nanos.Some? ==> m[Key.nanos] == nanos.value)
      && (nanos.None? && !excludeNone ==> m[Key.nanos] == Null)
  {
  }

  lemma MoneyObjectKeys(units: Value, currencyCode: Value, nanos: Option<Value>, excludeNone: bool)
    ensures MoneyObject(units, currencyCode, nanos, excludeNone).Keys == MoneyFields + (if nanos.Some? || !excludeNone then {Key.nanos} else {})
  {
  }

  lemma MoneyObjectNoNulls(units: Value, currencyCode: Value, nanos: Option<Value>, excludeNone: bool)
    requires excludeNone && NoNulls(units) && NoNulls(currencyCode) && (nanos.Some? ==> NoNulls(nanos.value))
    ensures NoNulls(Obj(MoneyObject(units, currencyCode, nanos, excludeNone)))
  {
    var m0: map<Key, Value> := map[];
    NoNullsPut(m0, Key.units, units);
    var m1 := m0[Key.units := units];
    NoNullsPut(m1, Key.currencyCode, currencyCode);
    var m2 := m1[Key.currencyCode := currencyCode];
    NoNullsPutOptional(m2, Key.nanos, nanos);
    var m3 := PutOptional(m2, Key.nanos, nanos, true);
  }

  /** An object whose serialised field values read back as `x`'s fields constructs `x`. */
  lemma MoneyFromObject(x: Money, units: Value, currencyCode: Value, nanos: Option<Value>)
    requires AsStr(units) == Ok(x.units)
      && AsStr(currencyCode) == Ok(x.currencyCode)
      && (if x.nanos.Some? then nanos.Some? && AsIntIn(nanos.value, -NanosBound, NanosBound) == Ok(x.nanos.value) else nanos.None?)
    ensures ParseMoney(Obj(MoneyObject(units, currencyCode, nanos, true))) == Ok(x)
  {
    MoneyObjectFields(units, currencyCode, nanos, true);
    MoneyFromAccepted(MoneyObject(units, currencyCode, nanos, true), x);
  }

  /** Serialisation of a `Money`; an unset field is dropped when `excludeNone` holds and written as `null` otherwise. */
  function DumpMoney(x: Money, excludeNone: bool): (r: Value)
    ensures r.Obj?
  {
    Obj(MoneyObject(Str(x.units), Str(x.currencyCode), if x.nanos.Some? then Some(Num(x.nanos.value as real)) else None, excludeNone))
  }

  /** The serialised object has exactly the declared keys, minus the unset ones when they are dropped. */
  lemma DumpMoneyKeys(x: Money, excludeNone: bool)
    ensures DumpMoney(x, excludeNone).fields.Keys == MoneyFields + (if x.nanos.Some? || !excludeNone then {Key.nanos} else {})
  {
    MoneyObjectKeys(Str(x.units), Str(x.currencyCode), if x.nanos.Some? then Some(Num(x.nanos.value as real)) else None, excludeNone);
  }

  /** With unset fields dropped, no `null` appears anywhere in the serialised tree. */
  lemma DumpMoneyNoNulls(x: Money)
    ensures NoNulls(DumpMoney(x, true))
  {
    MoneyObjectNoNulls(Str(x.units), Str(x.currencyCode), if x.nanos.Some? then Some(Num(x.nanos.value as real)) else None, true);
  }

  /** Serialising with unset fields dropped and constructing again gives back the same record. */
  lemma MoneyRoundTrip(x: Money)
    requires x.Valid()
    ensures ParseMoney(DumpMoney(x, true)) == Ok(x)
  {
    MoneyFromObject(x, Str(x.units), Str(x.currencyCode), if x.nanos.Some? then Some(Num(x.nanos.value as real)) else None);
  }

  /** Without `exclude_none` an unset `nanos` is written as `null`, which the
      integer field then refuses: the serialisation does not read back. */
  lemma MoneyNullDoesNotReadBack(x: Money)
    requires x.nanos == None
    ensures ParseMoney(DumpMoney(x, false)) == Err(ValidationError([At(Key.nanos)], IntType))
  {
  }

  /** Without `units` no amount is constructed; with `nanos` absent as well, the failure is at `units`. */
  lemma MoneyRequiresUnits(m: map<Key, Value>)
    requires Key.units !in m
    ensures ParseMoney(Obj(m)).Err?
    ensures Key.nanos !in m ==> ParseMoney(Obj(m)) == Err(ValidationError([At(Key.units)], Missing))
  {
  }

  /** `nanos` is accepted exactly within its closed range. */
  lemma NanosBounds(units: string, code: string, nanos: int)
    ensures var r := ParseMoney(Obj(map[Key.units := Str(units), Key.currencyCode := Str(code), Key.nanos := Num(nanos as real)]));
      (r.Ok? <==> -NanosBound <= nanos <= NanosBound) && (r.Ok? ==> r.value.nanos == Some(nanos))
  {
  }

  /** Decimal value of a non-empty string of digits. */
  function DigitsValue(s: string): (n: nat)
    requires forall i :: 0 <= i < |s| ==> '0' <= s[i] <= '9'
    decreases |s|
  {
    if s == [] then 0
    else
      var d := s[|s| - 1] as int - '0' as int;
      assert 0 <= d;
      DigitsValue(s[..|s| - 1]) * 10 + d
  }

  predicate IsDigits(s: string) {
    |s| > 0 && forall i :: 0 <= i < |s| ==> '0' <= s[i] <= '9'
  }

  /** The whole units written in `units` as an optionally signed decimal integer. */
  function UnitsValue(units: string): Option<int> {
    if IsDigits(units) then Some(DigitsValue(units))
    else if |units| > 1 && units[0] == '-' && IsDigits(units[1..]) then Some(-(DigitsValue(units[1..]) as int))
    else None
  }

  /** The documented sign rule: positive units need non-negative nanos, negative
      units need non-positive nanos, zero units allow either; an unset `nanos`
      counts as zero. Construction does not check it. */
  predicate SignRuleHolds(x: Money) {
    var n := x.nanos.GetOr(0);
    match UnitsValue(x.units)
    case None => false
    case Some(u) => (u > 0 ==> n >= 0) && (u < 0 ==> n <= 0)
  }

  /** The amount in nanos, when `units` is a decimal integer. */
  function AmountNanos(x: Money): Option<int> {
    match UnitsValue(x.units)
    case None => None
    case Some(u) => Some(u * 1_000_000_000 + x.nanos.GetOr(0))
  }

  /** Construction accepts an amount that breaks the sign rule. */
  lemma SignRuleNotEnforced()
    ensures var r := ParseMoney(Obj(map[Key.units := Str("1"), Key.currencyCode := Str("USD"), Key.nanos := Num(-5.0)]));
      r.Ok? && !SignRuleHolds(r.value)
  {
    assert UnitsValue("1") == Some(1);
  }

  /** The worked example of the documentation, $-1.75, keeps the sign rule. */
  lemma SignRuleExample()
    ensures SignRuleHolds(Money(Some(-750_000_000), "-1", "USD"))
    ensures AmountNanos(Money(Some(-750_000_000), "-1", "USD")) == Some(-1_750_000_000)
  {
    assert "-1"[1..] == "1";
    assert UnitsValue("-1") == Some(-1);
  }

  // ---- Date -------------------------------------------------------------------

  datatype Date = Date(month: int, day: int, year: int) {
    /** The declared ranges; a zero component marks a partial date and no calendar check is made. */
    predicate Valid() {
      0 <= month <= 12 && 0 <= day <= 31 && 0 <= year <= 9999
    }
  }

  /** The fields of `Date` that have no default. */
  const DateFields: set<Key> := {Key.month, Key.day, Key.year}

  /** Construction of a `Date` from keyword arguments: every declared field in
      declaration order, the first failure reported at its field. */
  function ParseDate(v: Value): (r: Parsed<Date>)
    ensures !v.Obj? ==> r == Err(ValidationError([], ModelType))
    ensures r.Ok? ==> r.value.Valid()
  {
    if !v.Obj? then Fail(ModelType)
    else
      var m := v.fields;
      var month :- Required(m, Key.month, x => AsIntIn(x, 0, 12));
      var day :- Required(m, Key.day, x => AsIntIn(x, 0, 31));
      var year :- Required(m, Key.year, x => AsIntIn(x, 0, 9999));
      Ok(Date(month, day, year))
  }

  /** The keyword arguments `m` construct exactly `x`: each field without a default is
      present and reads as `x`'s value,
      and any other key is ignored. */
  predicate DateAccepts(m: map<Key, Value>, x: Date) {
    Key.month in m && AsIntIn(m[Key.month], 0, 12) == Ok(x.month)
    && Key.day in m && AsIntIn(m[Key.day], 0, 31) == Ok(x.day)
    && Key.year in m && AsIntIn(m[Key.year], 0, 9999) == Ok(x.year)
  }

  lemma DateFromAccepted(m: map<Key, Value>, x: Date)
    requires DateAccepts(m, x)
    ensures ParseDate(Obj(m)) == Ok(x)
  {
  }

  lemma DateAcceptedFrom(v: Value)
    requires ParseDate(v).Ok?
    ensures v.Obj? && DateAccepts(v.fields, ParseDate(v).value)
  {
  }

  /** The object of already-serialised field values. */
  function DateObject(month: Value, day: Value, year: Value): map<Key, Value> {
    map[Key.month := month, Key.day := day, Key.year := year]
  }

  lemma DateObjectFields(month: Value, day: Value, year: Value)
    ensures var m := DateObject(month, day, year);
      Key.month in m && m[Key.month] == month
      && Key.day in m && m[Key.day] == day
      && Key.year in m && m[Key.year] == year
  {
  }

  lemma DateObjectKeys(month: Value, day: Value, year: Value)
    ensures DateObject(month, day, year).Keys == DateFields
  {
  }

  lemma DateObjectNoNulls(month: Value, day: Value, year: Value)
    requires NoNulls(month) && NoNulls(day) && NoNulls(year)
    ensures NoNulls(Obj(DateObject(month, day, year)))
  {
    var m0: map<Key, Value> := map[];
    NoNullsPut(m0, Key.month, month);
    var m1 := m0[Key.month := month];
    NoNullsPut(m1, Key.day, day);
    var m2 := m1[Key.day := day];
    NoNullsPut(m2, Key.year, year);
    var m3 := m2[Key.year := year];
  }

  /** An object whose serialised field values read back as `x`'s fields constructs `x`. */
  lemma DateFromObject(x: Date, month: Value, day: Value, year: Value)
    requires AsIntIn(month, 0, 12) == Ok(x.month)
      && AsIntIn(day, 0, 31) == Ok(x.day)
      && AsIntIn(year, 0, 9999) == Ok(x.year)
    ensures ParseDate(Obj(DateObject(month, day, year))) == Ok(x)
  {
    DateObjectFields(month, day, year);
    DateFromAccepted(DateObject(month, day, year), x);
  }

  /** Serialisation of a `Date`. */
  function DumpDate(x: Date): (r: Value)
    ensures r.Obj?
  {
    Obj(DateObject(Num(x.month as real), Num(x.day as real), Num(x.year as real)))
  }

  /** The serialised object has exactly the declared keys. */
  lemma DumpDateKeys(x: Date)
    ensures DumpDate(x).fields.Keys == DateFields
  {
    DateObjectKeys(Num(x.month as real), Num(x.day as real), Num(x.year as real));
  }

  /** With unset fields dropped, no `null` appears anywhere in the serialised tree. */
  lemma DumpDateNoNulls(x: Date)
    ensures NoNulls(DumpDate(x))
  {
    DateObjectNoNulls(Num(x.month as real), Num(x.day as real), Num(x.year as real));
  }

  /** Serialising with unset fields dropped and constructing again gives back the same record. */
  lemma DateRoundTrip(x: Date)
    requires x.Valid()
    ensures ParseDate(DumpDate(x)) == Ok(x)
  {
    DateFromObject(x, Num(x.month as real), Num(x.day as real), Num(x.year as real));
  }

  /** The keyword arguments `year=y, month=m, day=d`. */
  function DateArgs(year: int, month: int, day: int): Value {
    Obj(map[Key.year := Num(year as real), Key.month := Num(month as real), Key.day := Num(day as real)])
  }

  /** A date is accepted exactly when each component is in its range. */
  lemma DateAcceptance(year: int, month: int, day: int)
    ensures ParseDate(DateArgs(year, month, day)).Ok? <==> 0 <= month <= 12 && 0 <= day <= 31 && 0 <= year <= 9999
    ensures ParseDate(DateArgs(year, month, day)).Ok? ==> ParseDate(DateArgs(year, month, day)).value == Date(month, day, year)
  {
  }

  /** Partial dates are accepted, and so is a day the month does not have. */
  lemma DateExamples()
    ensures ParseDate(DateArgs(0, 0, 0)).Ok?
    ensures ParseDate(DateArgs(2023, 0, 0)).Ok?
    ensures ParseDate(DateArgs(2023, 2, 31)).Ok?
    ensures ParseDate(DateArgs(2023, 13, 1)) == Err(ValidationError([At(Key.month)], LessThanEqual))
    ensures ParseDate(DateArgs(10000, 1, 1)) == Err(ValidationError([At(Key.year)], LessThanEqual))
    ensures ParseDate(DateArgs(2023, 1, 32)) == Err(ValidationError([At(Key.day)], LessThanEqual))
  {
  }
}
