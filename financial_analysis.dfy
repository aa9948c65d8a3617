/** The records of solar_api_mock/core/properties/financial_analysis.py: the
    savings of buying, financing or leasing panels for one monthly bill size.
    Every field is required except the four sub-analyses and `defaultBill` of
    a `FinancialAnalysis`, which may be left unset. */
module Financial {
  import opened Wrappers
  import opened Json
  import opened Common

  // ---- FinancialDetails --------------------------------------------------------

  datatype FinancialDetails = FinancialDetails(
    lifetimeSrecTotal: Money,
    costOfElectricityWithoutSolar: Money,
    utilityIncentive: Money,
    netMeteringAllowed: bool,
    stateIncentive: Money,
    percentageExportedToGrid: real,
    initialAcKwhPerYear: real,
    remainingLifetimeUtilityBill: Money,
    solarPercentage: real,
    federalIncentive: Money)
  {
    predicate Valid() {
      lifetimeSrecTotal.Valid() && costOfElectricityWithoutSolar.Valid() && utilityIncentive.Valid()
      && stateIncentive.Valid() && remainingLifetimeUtilityBill.Valid() && federalIncentive.Valid()
    }

    /** Both percentages are documented as lying in 0-100; no bound is declared, so construction does not check it. */
    predicate PercentagesInRange() {
      0.0 <= percentageExportedToGrid <= 100.0 && 0.0 <= solarPercentage <= 100.0
    }
  }

  /** The fields of `FinancialDetails` that have no default. */
  const FinancialDetailsFields: set<Key> := {Key.lifetimeSrecTotal, Key.costOfElectricityWithoutSolar, Key.utilityIncentive, Key.netMeteringAllowed, Key.stateIncentive, Key.percentageExportedToGrid, Key.initialAcKwhPerYear, Key.remainingLifetimeUtilityBill, Key.solarPercentage, Key.federalIncentive}

  /** Construction of a `FinancialDetails` from keyword arguments: every declared field in
      declaration order, the first failure reported at its field. */
  function ParseFinancialDetails(v: Value): (r: Parsed<FinancialDetails>)
    ensures !v.Obj? ==> r == Err(ValidationError([], ModelType))
    ensures r.Ok? ==> r.value.Valid()
  {
    if !v.Obj? then Fail(ModelType)
    else
      var m := v.fields;
      var lifetimeSrecTotal :- Required(m, Key.lifetimeSrecTotal, ParseMoney);
      var costOfElectricityWithoutSolar :- Required(m, Key.costOfElectricityWithoutSolar, ParseMoney);
      var utilityIncentive :- Required(m, Key.utilityIncentive, ParseMoney);
      var netMeteringAllowed :- Required(m, Key.netMeteringAllowed, AsBool);
      var stateIncentive :- Required(m, Key.stateIncentive, ParseMoney);
      var percentageExportedToGrid :- Required(m, Key.percentageExportedToGrid, AsFloat);
      var initialAcKwhPerYear :- Required(m, Key.initialAcKwhPerYear, AsFloat);
      var remainingLifetimeUtilityBill :- Required(m, Key.remainingLifetimeUtilityBill, ParseMoney);
      var solarPercentage :- Required(m, Key.solarPercentage, AsFloat);
      var federalIncentive :- Required(m, Key.federalIncentive, ParseMoney);
      Ok(FinancialDetails(lifetimeSrecTotal, costOfElectricityWithoutSolar, utilityIncentive, netMeteringAllowed, stateIncentive, percentageExportedToGrid, initialAcKwhPerYear, remainingLifetimeUtilityBill, solarPercentage, federalIncentive))
  }

  /** The keyword arguments `m` construct exactly `x`: each field without a default is
      present and reads as `x`'s value,
      and any other key is ignored. */
  predicate FinancialDetailsAccepts(m: map<Key, Value>, x: FinancialDetails) {
    Key.lifetimeSrecTotal in m && ParseMoney(m[Key.lifetimeSrecTotal]) == Ok(x.lifetimeSrecTotal)
    && Key.costOfElectricityWithoutSolar in m && ParseMoney(m[Key.costOfElectricityWithoutSolar]) == Ok(x.costOfElectricityWithoutSolar)
    && Key.utilityIncentive in m && ParseMoney(m[Key.utilityIncentive]) == Ok(x.utilityIncentive)
    && Key.netMeteringAllowed in m && AsBool(m[Key.netMeteringAllowed]) == Ok(x.netMeteringAllowed)
    && Key.stateIncentive in m && ParseMoney(m[Key.stateIncentive]) == Ok(x.stateIncentive)
    && Key.percentageExportedToGrid in m && AsFloat(m[Key.percentageExportedToGrid]) == Ok(x.percentageExportedToGrid)
    && Key.initialAcKwhPerYear in m && AsFloat(m[Key.initialAcKwhPerYear]) == Ok(x.initialAcKwhPerYear)
    && Key.remainingLifetimeUtilityBill in m && ParseMoney(m[Key.remainingLifetimeUtilityBill]) == Ok(x.remainingLifetimeUtilityBill)
    && Key.solarPercentage in m && AsFloat(m[Key.solarPercentage]) == Ok(x.solarPercentage)
    && Key.federalIncentive in m && ParseMoney(m[Key.federalIncentive]) == Ok(x.federalIncentive)
  }

  lemma FinancialDetailsFromAccepted(m: map<Key, Value>, x: FinancialDetails)
    requires FinancialDetailsAccepts(m, x)
    ensures ParseFinancialDetails(Obj(m)) == Ok(x)
  {
  }

  lemma FinancialDetailsAcceptedFrom(v: Value)
    requires ParseFinancialDetails(v).Ok?
    ensures v.Obj? && FinancialDetailsAccepts(v.fields, ParseFinancialDetails(v).value)
  {
  }

  /** The object of already-serialised field values. */
  function FinancialDetailsObject(lifetimeSrecTotal: Value, costOfElectricityWithoutSolar: Value, utilityIncentive: Value, netMeteringAllowed: Value, stateIncentive: Value, percentageExportedToGrid: Value, initialAcKwhPerYear: Value, remainingLifetimeUtilityBill: Value, solarPercentage: Value, federalIncentive: Value): map<Key, Value> {
    map[Key.lifetimeSrecTotal := lifetimeSrecTotal, Key.costOfElectricityWithoutSolar := costOfElectricityWithoutSolar, Key.utilityIncentive := utilityIncentive, Key.netMeteringAllowed := netMeteringAllowed, Key.stateIncentive := stateIncentive, Key.percentageExportedToGrid := percentageExportedToGrid, Key.initialAcKwhPerYear := initialAcKwhPerYear, Key.remainingLifetimeUtilityBill := remainingLifetimeUtilityBill, Key.solarPercentage := solarPercentage, Key.federalIncentive := federalIncentive]
  }

  lemma FinancialDetailsObjectFields(lifetimeSrecTotal: Value, costOfElectricityWithoutSolar: Value, utilityIncentive: Value, netMeteringAllowed: Value, stateIncentive: Value, percentageExportedToGrid: Value, initialAcKwhPerYear: Value, remainingLifetimeUtilityBill: Value, solarPercentage: Value, federalIncentive: Value)
    ensures var m := FinancialDetailsObject(lifetimeSrecTotal, costOfElectricityWithoutSolar, utilityIncentive, netMeteringAllowed, stateIncentive, percentageExportedToGrid, initialAcKwhPerYear, remainingLifetimeUtilityBill, solarPercentage, federalIncentive);
      Key.lifetimeSrecTotal in m && m[Key.lifetimeSrecTotal] == lifetimeSrecTotal
      && Key.costOfElectricityWithoutSolar in m && m[Key.costOfElectricityWithoutSolar] == costOfElectricityWithoutSolar
      && Key.utilityIncentive in m && m[Key.utilityIncentive] == utilityIncentive
      && Key.netMeteringAllowed in m && m[Key.netMeteringAllowed] == netMeteringAllowed
      && Key.stateIncentive in m && m[Key.stateIncentive] == stateIncentive
      && Key.percentageExportedToGrid in m && m[Key.percentageExportedToGrid] == percentageExportedToGrid
      && Key.initialAcKwhPerYear in m && m[Key.initialAcKwhPerYear] == initialAcKwhPerYear
      && Key.remainingLifetimeUtilityBill in m && m[Key.remainingLifetimeUtilityBill] == remainingLifetimeUtilityBill
      && Key.solarPercentage in m && m[Key.solarPercentage] == solarPercentage
      && Key.federalIncentive in m && m[Key.federalIncentive] == federalIncentive
  {
  }

  lemma FinancialDetailsObjectKeys(lifetimeSrecTotal: Value, costOfElectricityWithoutSolar: Value, utilityIncentive: Value, netMeteringAllowed: Value, stateIncentive: Value, percentageExportedToGrid: Value, initialAcKwhPerYear: Value, remainingLifetimeUtilityBill: Value, solarPercentage: Value, federalIncentive: Value)
    ensures FinancialDetailsObject(lifetimeSrecTotal, costOfElectricityWithoutSolar, utilityIncentive, netMeteringAllowed, stateIncentive, percentageExportedToGrid, initialAcKwhPerYear, remainingLifetimeUtilityBill, solarPercentage, federalIncentive).Keys == FinancialDetailsFields
  {
  }

  lemma FinancialDetailsObjectNoNulls(lifetimeSrecTotal: Value, costOfElectricityWithoutSolar: Value, utilityIncentive: Value, netMeteringAllowed: Value, stateIncentive: Value, percentageExportedToGrid: Value, initialAcKwhPerYear: Value, remainingLifetimeUtilityBill: Value, solarPercentage: Value, federalIncentive: Value)
    requires NoNulls(lifetimeSrecTotal) && NoNulls(costOfElectricityWithoutSolar) && NoNulls(utilityIncentive) && NoNulls(netMeteringAllowed) && NoNulls(stateIncentive) && NoNulls(percentageExportedToGrid) && NoNulls(initialAcKwhPerYear) && NoNulls(remainingLifetimeUtilityBill) && NoNulls(solarPercentage) && NoNulls(federalIncentive)
    ensures NoNulls(Obj(FinancialDetailsObject(lifetimeSrecTotal, costOfElectricityWithoutSolar, utilityIncentive, netMeteringAllowed, stateIncentive, percentageExportedToGrid, initialAcKwhPerYear, remainingLifetimeUtilityBill, solarPercentage, federalIncentive)))
  {
    var m0: map<Key, Value> := map[];
    NoNullsPut(m0, Key.lifetimeSrecTotal, lifetimeSrecTotal);
    var m1 := m0[Key.lifetimeSrecTotal := lifetimeSrecTotal];
    NoNullsPut(m1, Key.costOfElectricityWithoutSolar, costOfElectricityWithoutSolar);
    var m2 := m1[Key.costOfElectricityWithoutSolar := costOfElectricityWithoutSolar];
    NoNullsPut(m2, Key.utilityIncentive, utilityIncentive);
    var m3 := m2[Key.utilityIncentive := utilityIncentive];
    NoNullsPut(m3, Key.netMeteringAllowed, netMeteringAllowed);
    var m4 := m3[Key.netMeteringAllowed := netMeteringAllowed];
    NoNullsPut(m4, Key.stateIncentive, stateIncentive);
    var m5 := m4[Key.stateIncentive := stateIncentive];
    NoNullsPut(m5, Key.percentageExportedToGrid, percentageExportedToGrid);
    var m6 := m5[Key.percentageExportedToGrid := percentageExportedToGrid];
    NoNullsPut(m6, Key.initialAcKwhPerYear, initialAcKwhPerYear);
    var m7 := m6[Key.initialAcKwhPerYear := initialAcKwhPerYear];
    NoNullsPut(m7, Key.remainingLifetimeUtilityBill, remainingLifetimeUtilityBill);
    var m8 := m7[Key.remainingLifetimeUtilityBill := remainingLifetimeUtilityBill];
    NoNullsPut(m8, Key.solarPercentage, solarPercentage);
    var m9 := m8[Key.solarPercentage := solarPercentage];
    NoNullsPut(m9, Key.federalIncentive, federalIncentive);
    var m10 := m9[Key.federalIncentive := federalIncentive];
  }

  /** An object whose serialised field values read back as `x`'s fields constructs `x`. */
  lemma FinancialDetailsFromObject(x: FinancialDetails, lifetimeSrecTotal: Value, costOfElectricityWithoutSolar: Value, utilityIncentive: Value, netMeteringAllowed: Value, stateIncentive: Value, percentageExportedToGrid: Value, initialAcKwhPerYear: Value, remainingLifetimeUtilityBill: Value, solarPercentage: Value, federalIncentive: Value)
    requires ParseMoney(lifetimeSrecTotal) == Ok(x.lifetimeSrecTotal)
      && ParseMoney(costOfElectricityWithoutSolar) == Ok(x.costOfElectricityWithoutSolar)
      && ParseMoney(utilityIncentive) == Ok(x.utilityIncentive)
      && AsBool(netMeteringAllowed) == Ok(x.netMeteringAllowed)
      && ParseMoney(stateIncentive) == Ok(x.stateIncentive)
      && AsFloat(percentageExportedToGrid) == Ok(x.percentageExportedToGrid)
      && AsFloat(initialAcKwhPerYear) == Ok(x.initialAcKwhPerYear)
      && ParseMoney(remainingLifetimeUtilityBill) == Ok(x.remainingLifetimeUtilityBill)
      && AsFloat(solarPercentage) == Ok(x.solarPercentage)
      && ParseMoney(federalIncentive) == Ok(x.federalIncentive)
    ensures ParseFinancialDetails(Obj(FinancialDetailsObject(lifetimeSrecTotal, costOfElectricityWithoutSolar, utilityIncentive, netMeteringAllowed, stateIncentive, percentageExportedToGrid, initialAcKwhPerYear, remainingLifetimeUtilityBill, solarPercentage, federalIncentive))) == Ok(x)
  {
    FinancialDetailsObjectFields(lifetimeSrecTotal, costOfElectricityWithoutSolar, utilityIncentive, netMeteringAllowed, stateIncentive, percentageExportedToGrid, initialAcKwhPerYear, remainingLifetimeUtilityBill, solarPercentage, federalIncentive);
    FinancialDetailsFromAccepted(FinancialDetailsObject(lifetimeSrecTotal, costOfElectricityWithoutSolar, utilityIncentive, netMeteringAllowed, stateIncentive, percentageExportedToGrid, initialAcKwhPerYear, remainingLifetimeUtilityBill, solarPercentage, federalIncentive), x);
  }

  /** Serialisation of a `FinancialDetails`. */
  function DumpFinancialDetails(x: FinancialDetails, excludeNone: bool): (r: Value)
    ensures r.Obj?
  {
    Obj(FinancialDetailsObject(DumpMoney(x.lifetimeSrecTotal, excludeNone), DumpMoney(x.costOfElectricityWithoutSolar, excludeNone), DumpMoney(x.utilityIncentive, excludeNone), Bool(x.netMeteringAllowed), DumpMoney(x.stateIncentive, excludeNone), Num(x.percentageExportedToGrid), Num(x.initialAcKwhPerYear), DumpMoney(x.remainingLifetimeUtilityBill, excludeNone), Num(x.solarPercentage), DumpMoney(x.federalIncentive, excludeNone)))
  }

  /** The serialised object has exactly the declared keys. */
  lemma DumpFinancialDetailsKeys(x: FinancialDetails, excludeNone: bool)
    ensures DumpFinancialDetails(x, excludeNone).fields.Keys == FinancialDetailsFields
  {
    FinancialDetailsObjectKeys(DumpMoney(x.lifetimeSrecTotal, excludeNone), DumpMoney(x.costOfElectricityWithoutSolar, excludeNone), DumpMoney(x.utilityIncentive, excludeNone), Bool(x.netMeteringAllowed), DumpMoney(x.stateIncentive, excludeNone), Num(x.percentageExportedToGrid), Num(x.initialAcKwhPerYear), DumpMoney(x.remainingLifetimeUtilityBill, excludeNone), Num(x.solarPercentage), DumpMoney(x.federalIncentive, excludeNone));
  }

  /** With unset fields dropped, no `null` appears anywhere in the serialised tree. */
  lemma DumpFinancialDetailsNoNulls(x: FinancialDetails)
    ensures NoNulls(DumpFinancialDetails(x, true))
  {
    DumpMoneyNoNulls(x.lifetimeSrecTotal);
    DumpMoneyNoNulls(x.costOfElectricityWithoutSolar);
    DumpMoneyNoNulls(x.utilityIncentive);
    DumpMoneyNoNulls(x.stateIncentive);
    DumpMoneyNoNulls(x.remainingLifetimeUtilityBill);
    DumpMoneyNoNulls(x.federalIncentive);
    FinancialDetailsObjectNoNulls(DumpMoney(x.lifetimeSrecTotal, true), DumpMoney(x.costOfElectricityWithoutSolar, true), DumpMoney(x.utilityIncentive, true), Bool(x.netMeteringAllowed), DumpMoney(x.stateIncentive, true), Num(x.percentageExportedToGrid), Num(x.initialAcKwhPerYear), DumpMoney(x.remainingLifetimeUtilityBill, true), Num(x.solarPercentage), DumpMoney(x.federalIncentive, true));
  }

  /** Serialising with unset fields dropped and constructing again gives back the same record. */
  lemma FinancialDetailsRoundTrip(x: FinancialDetails)
    requires x.Valid()
    ensures ParseFinancialDetails(DumpFinancialDetails(x, true)) == Ok(x)
  {
    MoneyRoundTrip(x.lifetimeSrecTotal);
    MoneyRoundTrip(x.costOfElectricityWithoutSolar);
    MoneyRoundTrip(x.utilityIncentive);
    MoneyRoundTrip(x.stateIncentive);
    MoneyRoundTrip(x.remainingLifetimeUtilityBill);
    MoneyRoundTrip(x.federalIncentive);
    FinancialDetailsFromObject(x, DumpMoney(x.lifetimeSrecTotal, true), DumpMoney(x.costOfElectricityWithoutSolar, true), DumpMoney(x.utilityIncentive, true), Bool(x.netMeteringAllowed), DumpMoney(x.stateIncentive, true), Num(x.percentageExportedToGrid), Num(x.initialAcKwhPerYear), DumpMoney(x.remainingLifetimeUtilityBill, true), Num(x.solarPercentage), DumpMoney(x.federalIncentive, true));
  }

  // ---- SavingsOverTime ---------------------------------------------------------

  datatype SavingsOverTime = SavingsOverTime(
    presentValueOfSavingsLifetime: Money,
    presentValueOfSavingsYear20: Money,
    savingsYear20: Money,
    financiallyViable: bool,
    savingsLifetime: Money,
    savingsYear1: Money)
  {
    predicate Valid() {
      presentValueOfSavingsLifetime.Valid() && presentValueOfSavingsYear20.Valid() && savingsYear20.Valid()
      && savingsLifetime.Valid() && savingsYear1.Valid()
    }
  }

  /** The fields of `SavingsOverTime` that have no default. */
  const SavingsOverTimeFields: set<Key> := {Key.presentValueOfSavingsLifetime, Key.presentValueOfSavingsYear20, Key.savingsYear20, Key.financiallyViable, Key.savingsLifetime, Key.savingsYear1}

  /** Construction of a `SavingsOverTime` from keyword arguments: every declared field in
      declaration order, the first failure reported at its field. */
  function ParseSavingsOverTime(v: Value): (r: Parsed<SavingsOverTime>)
    ensures !v.Obj? ==> r == Err(ValidationError([], ModelType))
    ensures r.Ok? ==> r.value.Valid()
  {
    if !v.Obj? then Fail(ModelType)
    else
      var m := v.fields;
      var presentValueOfSavingsLifetime :- Required(m, Key.presentValueOfSavingsLifetime, ParseMoney);
      var presentValueOfSavingsYear20 :- Required(m, Key.presentValueOfSavingsYear20, ParseMoney);
      var savingsYear20 :- Required(m, Key.savingsYear20, ParseMoney);
      var financiallyViable :- Required(m, Key.financiallyViable, AsBool);
      var savingsLifetime :- Required(m, Key.savingsLifetime, ParseMoney);
      var savingsYear1 :- Required(m, Key.savingsYear1, ParseMoney);
      Ok(SavingsOverTime(presentValueOfSavingsLifetime, presentValueOfSavingsYear20, savingsYear20, financiallyViable, savingsLifetime, savingsYear1))
  }

  /** The keyword arguments `m` construct exactly `x`: each field without a default is
      present and reads as `x`'s value,
      and any other key is ignored. */
  predicate SavingsOverTimeAccepts(m: map<Key, Value>, x: SavingsOverTime) {
    Key.presentValueOfSavingsLifetime in m && ParseMoney(m[Key.presentValueOfSavingsLifetime]) == Ok(x.presentValueOfSavingsLifetime)
    && Key.presentValueOfSavingsYear20 in m && ParseMoney(m[Key.presentValueOfSavingsYear20]) == Ok(x.presentValueOfSavingsYear20)
    && Key.savingsYear20 in m && ParseMoney(m[Key.savingsYear20]) == Ok(x.savingsYear20)
    && Key.financiallyViable in m && AsBool(m[Key.financiallyViable]) == Ok(x.financiallyViable)
    && Key.savingsLifetime in m && ParseMoney(m[Key.savingsLifetime]) == Ok(x.savingsLifetime)
    && Key.savingsYear1 in m && ParseMoney(m[Key.savingsYear1]) == Ok(x.savingsYear1)
  }

  lemma SavingsOverTimeFromAccepted(m: map<Key, Value>, x: SavingsOverTime)
    requires SavingsOverTimeAccepts(m, x)
    ensures ParseSavingsOverTime(Obj(m)) == Ok(x)
  {
  }

  lemma SavingsOverTimeAcceptedFrom(v: Value)
    requires ParseSavingsOverTime(v).Ok?
    ensures v.Obj? && SavingsOverTimeAccepts(v.fields, ParseSavingsOverTime(v).value)
  {
  }

  /** The object of already-serialised field values. */
  function SavingsOverTimeObject(presentValueOfSavingsLifetime: Value, presentValueOfSavingsYear20: Value, savingsYear20: Value, financiallyViable: Value, savingsLifetime: Value, savingsYear1: Value): map<Key, Value> {
    map[Key.presentValueOfSavingsLifetime := presentValueOfSavingsLifetime, Key.presentValueOfSavingsYear20 := presentValueOfSavingsYear20, Key.savingsYear20 := savingsYear20, Key.financiallyViable := financiallyViable, Key.savingsLifetime := savingsLifetime, Key.savingsYear1 := savingsYear1]
  }

  lemma SavingsOverTimeObjectFields(presentValueOfSavingsLifetime: Value, presentValueOfSavingsYear20: Value, savingsYear20: Value, financiallyViable: Value, savingsLifetime: Value, savingsYear1: Value)
    ensures var m := SavingsOverTimeObject(presentValueOfSavingsLifetime, presentValueOfSavingsYear20, savingsYear20, financiallyViable, savingsLifetime, savingsYear1);
      Key.presentValueOfSavingsLifetime in m && m[Key.presentValueOfSavingsLifetime] == presentValueOfSavingsLifetime
      && Key.presentValueOfSavingsYear20 in m && m[Key.presentValueOfSavingsYear20] == presentValueOfSavingsYear20
      && Key.savingsYear20 in m && m[Key.savingsYear20] == savingsYear20
      && Key.financiallyViable in m && m[Key.financiallyViable] == financiallyViable
      && Key.savingsLifetime in m && m[Key.savingsLifetime] == savingsLifetime
      && Key.savingsYear1 in m && m[Key.savingsYear1] == savingsYear1
  {
  }

  lemma SavingsOverTimeObjectKeys(presentValueOfSavingsLifetime: Value, presentValueOfSavingsYear20: Value, savingsYear20: Value, financiallyViable: Value, savingsLifetime: Value, savingsYear1: Value)
    ensures SavingsOverTimeObject(presentValueOfSavingsLifetime, presentValueOfSavingsYear20, savingsYear20, financiallyViable, savingsLifetime, savingsYear1).Keys == SavingsOverTimeFields
  {
  }

  lemma SavingsOverTimeObjectNoNulls(presentValueOfSavingsLifetime: Value, presentValueOfSavingsYear20: Value, savingsYear20: Value, financiallyViable: Value, savingsLifetime: Value, savingsYear1: Value)
    requires NoNulls(presentValueOfSavingsLifetime) && NoNulls(presentValueOfSavingsYear20) && NoNulls(savingsYear20) && NoNulls(financiallyViable) && NoNulls(savingsLifetime) && NoNulls(savingsYear1)
    ensures NoNulls(Obj(SavingsOverTimeObject(presentValueOfSavingsLifetime, presentValueOfSavingsYear20, savingsYear20, financiallyViable, savingsLifetime, savingsYear1)))
  {
    var m0: map<Key, Value> := map[];
    NoNullsPut(m0, Key.presentValueOfSavingsLifetime, presentValueOfSavingsLifetime);
    var m1 := m0[Key.presentValueOfSavingsLifetime := presentValueOfSavingsLifetime];
    NoNullsPut(m1, Key.presentValueOfSavingsYear20, presentValueOfSavingsYear20);
    var m2 := m1[Key.presentValueOfSavingsYear20 := presentValueOfSavingsYear20];
    NoNullsPut(m2, Key.savingsYear20, savingsYear20);
    var m3 := m2[Key.savingsYear20 := savingsYear20];
    NoNullsPut(m3, Key.financiallyViable, financiallyViable);
    var m4 := m3[Key.financiallyViable := financiallyViable];
    NoNullsPut(m4, Key.savingsLifetime, savingsLifetime);
    var m5 := m4[Key.savingsLifetime := savingsLifetime];
    NoNullsPut(m5, Key.savingsYear1, savingsYear1);
    var m6 := m5[Key.savingsYear1 := savingsYear1];
  }

  /** An object whose serialised field values read back as `x`'s fields constructs `x`. */
  lemma SavingsOverTimeFromObject(x: SavingsOverTime, presentValueOfSavingsLifetime: Value, presentValueOfSavingsYear20: Value, savingsYear20: Value, financiallyViable: Value, savingsLifetime: Value, savingsYear1: Value)
    requires ParseMoney(presentValueOfSavingsLifetime) == Ok(x.presentValueOfSavingsLifetime)
      && ParseMoney(presentValueOfSavingsYear20) == Ok(x.presentValueOfSavingsYear20)
      && ParseMoney(savingsYear20) == Ok(x.savingsYear20)
      && AsBool(financiallyViable) == Ok(x.financiallyViable)
      && ParseMoney(savingsLifetime) == Ok(x.savingsLifetime)
      && ParseMoney(savingsYear1) == Ok(x.savingsYear1)
    ensures ParseSavingsOverTime(Obj(SavingsOverTimeObject(presentValueOfSavingsLifetime, presentValueOfSavingsYear20, savingsYear20, financiallyViable, savingsLifetime, savingsYear1))) == Ok(x)
  {
    SavingsOverTimeObjectFields(presentValueOfSavingsLifetime, presentValueOfSavingsYear20, savingsYear20, financiallyViable, savingsLifetime, savingsYear1);
    SavingsOverTimeFromAccepted(SavingsOverTimeObject(presentValueOfSavingsLifetime, presentValueOfSavingsYear20, savingsYear20, financiallyViable, savingsLifetime, savingsYear1), x);
  }

  /** Serialisation of a `SavingsOverTime`. */
  function DumpSavingsOverTime(x: SavingsOverTime, excludeNone: bool): (r: Value)
    ensures r.Obj?
  {
    Obj(SavingsOverTimeObject(DumpMoney(x.presentValueOfSavingsLifetime, excludeNone), DumpMoney(x.presentValueOfSavingsYear20, excludeNone), DumpMoney(x.savingsYear20, excludeNone), Bool(x.financiallyViable), DumpMoney(x.savingsLifetime, excludeNone), DumpMoney(x.savingsYear1, excludeNone)))
  }

  /** The serialised object has exactly the declared keys. */
  lemma DumpSavingsOverTimeKeys(x: SavingsOverTime, excludeNone: bool)
    ensures DumpSavingsOverTime(x, excludeNone).fields.Keys == SavingsOverTimeFields
  {
    SavingsOverTimeObjectKeys(DumpMoney(x.presentValueOfSavingsLifetime, excludeNone), DumpMoney(x.presentValueOfSavingsYear20, excludeNone), DumpMoney(x.savingsYear20, excludeNone), Bool(x.financiallyViable), DumpMoney(x.savingsLifetime, excludeNone), DumpMoney(x.savingsYear1, excludeNone));
  }

  /** With unset fields dropped, no `null` appears anywhere in the serialised tree. */
  lemma DumpSavingsOverTimeNoNulls(x: SavingsOverTime)
    ensures NoNulls(DumpSavingsOverTime(x, true))
  {
    DumpMoneyNoNulls(x.presentValueOfSavingsLifetime);
    DumpMoneyNoNulls(x.presentValueOfSavingsYear20);
    DumpMoneyNoNulls(x.savingsYear20);
    DumpMoneyNoNulls(x.savingsLifetime);
    DumpMoneyNoNulls(x.savingsYear1);
    SavingsOverTimeObjectNoNulls(DumpMoney(x.presentValueOfSavingsLifetime, true), DumpMoney(x.presentValueOfSavingsYear20, true), DumpMoney(x.savingsYear20, true), Bool(x.financiallyViable), DumpMoney(x.savingsLifetime, true), DumpMoney(x.savingsYear1, true));
  }

  /** Serialising with unset fields dropped and constructing again gives back the same record. */
  lemma SavingsOverTimeRoundTrip(x: SavingsOverTime)
    requires x.Valid()
    ensures ParseSavingsOverTime(DumpSavingsOverTime(x, true)) == Ok(x)
  {
    MoneyRoundTrip(x.presentValueOfSavingsLifetime);
    MoneyRoundTrip(x.presentValueOfSavingsYear20);
    MoneyRoundTrip(x.savingsYear20);
    MoneyRoundTrip(x.savingsLifetime);
    MoneyRoundTrip(x.savingsYear1);
    SavingsOverTimeFromObject(x, DumpMoney(x.presentValueOfSavingsLifetime, true), DumpMoney(x.presentValueOfSavingsYear20, true), DumpMoney(x.savingsYear20, true), Bool(x.financiallyViable), DumpMoney(x.savingsLifetime, true), DumpMoney(x.savingsYear1, true));
  }

  // ---- LeasingSavings ------------------------------------------------------------

  datatype LeasingSavings = LeasingSavings(
    savings: SavingsOverTime,
    leasesSupported: bool,
    annualLeasingCost: Money,
    leasesAllowed: bool)
  {
    predicate Valid() {
      savings.Valid() && annualLeasingCost.Valid()
    }
  }

  /** The fields of `LeasingSavings` that have no default. */
  const LeasingSavingsFields: set<Key> := {Key.savings, Key.leasesSupported, Key.annualLeasingCost, Key.leasesAllowed}

  /** Construction of a `LeasingSavings` from keyword arguments: every declared field in
      declaration order, the first failure reported at its field. */
  function ParseLeasingSavings(v: Value): (r: Parsed<LeasingSavings>)
    ensures !v.Obj? ==> r == Err(ValidationError([], ModelType))
    ensures r.Ok? ==> r.value.Valid()
  {
    if !v.Obj? then Fail(ModelType)
    else
      var m := v.fields;
      var savings :- Required(m, Key.savings, ParseSavingsOverTime);
      var leasesSupported :- Required(m, Key.leasesSupported, AsBool);
      var annualLeasingCost :- Required(m, Key.annualLeasingCost, ParseMoney);
      var leasesAllowed :- Required(m, Key.leasesAllowed, AsBool);
      Ok(LeasingSavings(savings, leasesSupported, annualLeasingCost, leasesAllowed))
  }

  /** The keyword arguments `m` construct exactly `x`: each field without a default is
      present and reads as `x`'s value,
      and any other key is ignored. */
  predicate LeasingSavingsAccepts(m: map<Key, Value>, x: LeasingSavings) {
    Key.savings in m && ParseSavingsOverTime(m[Key.savings]) == Ok(x.savings)
    && Key.leasesSupported in m && AsBool(m[Key.leasesSupported]) == Ok(x.leasesSupported)
    && Key.annualLeasingCost in m && ParseMoney(m[Key.annualLeasingCost]) == Ok(x.annualLeasingCost)
    && Key.leasesAllowed in m && AsBool(m[Key.leasesAllowed]) == Ok(x.leasesAllowed)
  }

  lemma LeasingSavingsFromAccepted(m: map<Key, Value>, x: LeasingSavings)
    requires LeasingSavingsAccepts(m, x)
    ensures ParseLeasingSavings(Obj(m)) == Ok(x)
  {
  }

  lemma LeasingSavingsAcceptedFrom(v: Value)
    requires ParseLeasingSavings(v).Ok?
    ensures v.Obj? && LeasingSavingsAccepts(v.fields, ParseLeasingSavings(v).value)
  {
  }

  /** The object of already-serialised field values. */
  function LeasingSavingsObject(savings: Value, leasesSupported: Value, annualLeasingCost: Value, leasesAllowed: Value): map<Key, Value> {
    map[Key.savings := savings, Key.leasesSupported := leasesSupported, Key.annualLeasingCost := annualLeasingCost, Key.leasesAllowed := leasesAllowed]
  }

  lemma LeasingSavingsObjectFields(savings: Value, leasesSupported: Value, annualLeasingCost: Value, leasesAllowed: Value)
    ensures var m := LeasingSavingsObject(savings, leasesSupported, annualLeasingCost, leasesAllowed);
      Key.savings in m && m[Key.savings] == savings
      && Key.leasesSupported in m && m[Key.leasesSupported] == leasesSupported
      && Key.annualLeasingCost in m && m[Key.annualLeasingCost] == annualLeasingCost
      && Key.leasesAllowed in m && m[Key.leasesAllowed] == leasesAllowed
  {
  }

  lemma LeasingSavingsObjectKeys(savings: Value, leasesSupported: Value, annualLeasingCost: Value, leasesAllowed: Value)
    ensures LeasingSavingsObject(savings, leasesSupported, annualLeasingCost, leasesAllowed).Keys == LeasingSavingsFields
  {
  }

  lemma LeasingSavingsObjectNoNulls(savings: Value, leasesSupported: Value, annualLeasingCost: Value, leasesAllowed: Value)
    requires NoNulls(savings) && NoNulls(leasesSupported) && NoNulls(annualLeasingCost) && NoNulls(leasesAllowed)
    ensures NoNulls(Obj(LeasingSavingsObject(savings, leasesSupported, annualLeasingCost, leasesAllowed)))
  {
    var m0: map<Key, Value> := map[];
    NoNullsPut(m0, Key.savings, savings);
    var m1 := m0[Key.savings := savings];
    NoNullsPut(m1, Key.leasesSupported, leasesSupported);
    var m2 := m1[Key.leasesSupported := leasesSupported];
    NoNullsPut(m2, Key.annualLeasingCost, annualLeasingCost);
    var m3 := m2[Key.annualLeasingCost := annualLeasingCost];
    NoNullsPut(m3, Key.leasesAllowed, leasesAllowed);
    var m4 := m3[Key.leasesAllowed := leasesAllowed];
  }

  /** An object whose serialised field values read back as `x`'s fields constructs `x`. */
  lemma LeasingSavingsFromObject(x: LeasingSavings, savings: Value, leasesSupported: Value, annualLeasingCost: Value, leasesAllowed: Value)
    requires ParseSavingsOverTime(savings) == Ok(x.savings)
      && AsBool(leasesSupported) == Ok(x.leasesSupported)
      && ParseMoney(annualLeasingCost) == Ok(x.annualLeasingCost)
      && AsBool(leasesAllowed) == Ok(x.leasesAllowed)
    ensures ParseLeasingSavings(Obj(LeasingSavingsObject(savings, leasesSupported, annualLeasingCost, leasesAllowed))) == Ok(x)
  {
    LeasingSavingsObjectFields(savings, leasesSupported, annualLeasingCost, leasesAllowed);
    LeasingSavingsFromAccepted(LeasingSavingsObject(savings, leasesSupported, annualLeasingCost, leasesAllowed), x);
  }

  /** Serialisation of a `LeasingSavings`. */
  function DumpLeasingSavings(x: LeasingSavings, excludeNone: bool): (r: Value)
    ensures r.Obj?
  {
    Obj(LeasingSavingsObject(DumpSavingsOverTime(x.savings, excludeNone), Bool(x.leasesSupported), DumpMoney(x.annualLeasingCost, excludeNone), Bool(x.leasesAllowed)))
  }

  /** The serialised object has exactly the declared keys. */
  lemma DumpLeasingSavingsKeys(x: LeasingSavings, excludeNone: bool)
    ensures DumpLeasingSavings(x, excludeNone).fields.Keys == LeasingSavingsFields
  {
    LeasingSavingsObjectKeys(DumpSavingsOverTime(x.savings, excludeNone), Bool(x.leasesSupported), DumpMoney(x.annualLeasingCost, excludeNone), Bool(x.leasesAllowed));
  }

  /** With unset fields dropped, no `null` appears anywhere in the serialised tree. */
  lemma DumpLeasingSavingsNoNulls(x: LeasingSavings)
    ensures NoNulls(DumpLeasingSavings(x, true))
  {
    DumpSavingsOverTimeNoNulls(x.savings);
    DumpMoneyNoNulls(x.annualLeasingCost);
    LeasingSavingsObjectNoNulls(DumpSavingsOverTime(x.savings, true), Bool(x.leasesSupported), DumpMoney(x.annualLeasingCost, true), Bool(x.leasesAllowed));
  }

  /** Serialising with unset fields dropped and constructing again gives back the same record. */
  lemma LeasingSavingsRoundTrip(x: LeasingSavings)
    requires x.Valid()
    ensures ParseLeasingSavings(DumpLeasingSavings(x, true)) == Ok(x)
  {
    SavingsOverTimeRoundTrip(x.savings);
    MoneyRoundTrip(x.annualLeasingCost);
    LeasingSavingsFromObject(x, DumpSavingsOverTime(x.savings, true), Bool(x.leasesSupported), DumpMoney(x.annualLeasingCost, true), Bool(x.leasesAllowed));
  }

  // ---- CashPurchaseSavings -------------------------------------------------------

  datatype CashPurchaseSavings = CashPurchaseSavings(
    rebateValue: Money,
    savings: SavingsOverTime,
    upfrontCost: Money,
    outOfPocketCost: Money,
    paybackYears: real)
  {
    predicate Valid() {
      rebateValue.Valid() && savings.Valid() && upfrontCost.Valid() && outOfPocketCost.Valid()
    }

    /** A negative payback period stands for "payback never occurs within the lifetime". */
    predicate PaysBack() {
      paybackYears >= 0.0
    }
  }

  /** The fields of `CashPurchaseSavings` that have no default. */
  const CashPurchaseSavingsFields: set<Key> := {Key.rebateValue, Key.savings, Key.upfrontCost, Key.outOfPocketCost, Key.paybackYears}

  /** Construction of a `CashPurchaseSavings` from keyword arguments: every declared field in
      declaration order, the first failure reported at its field. */
  function ParseCashPurchaseSavings(v: Value): (r: Parsed<CashPurchaseSavings>)
    ensures !v.Obj? ==> r == Err(ValidationError([], ModelType))
    ensures r.Ok? ==> r.value.Valid()
  {
    if !v.Obj? then Fail(ModelType)
    else
      var m := v.fields;
      var rebateValue :- Required(m, Key.rebateValue, ParseMoney);
      var savings :- Required(m, Key.savings, ParseSavingsOverTime);
      var upfrontCost :- Required(m, Key.upfrontCost, ParseMoney);
      var outOfPocketCost :- Required(m, Key.outOfPocketCost, ParseMoney);
      var paybackYears :- Required(m, Key.paybackYears, AsFloat);
      Ok(CashPurchaseSavings(rebateValue, savings, upfrontCost, outOfPocketCost, paybackYears))
  }

  /** The keyword arguments `m` construct exactly `x`: each field without a default is
      present and reads as `x`'s value,
      and any other key is ignored. */
  predicate CashPurchaseSavingsAccepts(m: map<Key, Value>, x: CashPurchaseSavings) {
    Key.rebateValue in m && ParseMoney(m[Key.rebateValue]) == Ok(x.rebateValue)
    && Key.savings in m && ParseSavingsOverTime(m[Key.savings]) == Ok(x.savings)
    && Key.upfrontCost in m && ParseMoney(m[Key.upfrontCost]) == Ok(x.upfrontCost)
    && Key.outOfPocketCost in m && ParseMoney(m[Key.outOfPocketCost]) == Ok(x.outOfPocketCost)
    && Key.paybackYears in m && AsFloat(m[Key.paybackYears]) == Ok(x.paybackYears)
  }

  lemma CashPurchaseSavingsFromAccepted(m: map<Key, Value>, x: CashPurchaseSavings)
    requires CashPurchaseSavingsAccepts(m, x)
    ensures ParseCashPurchaseSavings(Obj(m)) == Ok(x)
  {
  }

  lemma CashPurchaseSavingsAcceptedFrom(v: Value)
    requires ParseCashPurchaseSavings(v).Ok?
    ensures v.Obj? && CashPurchaseSavingsAccepts(v.fields, ParseCashPurchaseSavings(v).value)
  {
  }

  /** The object of already-serialised field values. */
  function CashPurchaseSavingsObject(rebateValue: Value, savings: Value, upfrontCost: Value, outOfPocketCost: Value, paybackYears: Value): map<Key, Value> {
    map[Key.rebateValue := rebateValue, Key.savings := savings, Key.upfrontCost := upfrontCost, Key.outOfPocketCost := outOfPocketCost, Key.paybackYears := paybackYears]
  }

  lemma CashPurchaseSavingsObjectFields(rebateValue: Value, savings: Value, upfrontCost: Value, outOfPocketCost: Value, paybackYears: Value)
    ensures var m := CashPurchaseSavingsObject(rebateValue, savings, upfrontCost, outOfPocketCost, paybackYears);
      Key.rebateValue in m && m[Key.rebateValue] == rebateValue
      && Key.savings in m && m[Key.savings] == savings
      && Key.upfrontCost in m && m[Key.upfrontCost] == upfrontCost
      && Key.outOfPocketCost in m && m[Key.outOfPocketCost] == outOfPocketCost
      && Key.paybackYears in m && m[Key.paybackYears] == paybackYears
  {
  }

  lemma CashPurchaseSavingsObjectKeys(rebateValue: Value, savings: Value, upfrontCost: Value, outOfPocketCost: Value, paybackYears: Value)
    ensures CashPurchaseSavingsObject(rebateValue, savings, upfrontCost, outOfPocketCost, paybackYears).Keys == CashPurchaseSavingsFields
  {
  }

  lemma CashPurchaseSavingsObjectNoNulls(rebateValue: Value, savings: Value, upfrontCost: Value, outOfPocketCost: Value, paybackYears: Value)
    requires NoNulls(rebateValue) && NoNulls(savings) && NoNulls(upfrontCost) && NoNulls(outOfPocketCost) && NoNulls(paybackYears)
    ensures NoNulls(Obj(CashPurchaseSavingsObject(rebateValue, savings, upfrontCost, outOfPocketCost, paybackYears)))
  {
    var m0: map<Key, Value> := map[];
    NoNullsPut(m0, Key.rebateValue, rebateValue);
    var m1 := m0[Key.rebateValue := rebateValue];
    NoNullsPut(m1, Key.savings, savings);
    var m2 := m1[Key.savings := savings];
    NoNullsPut(m2, Key.upfrontCost, upfrontCost);
    var m3 := m2[Key.upfrontCost := upfrontCost];
    NoNullsPut(m3, Key.outOfPocketCost, outOfPocketCost);
    var m4 := m3[Key.outOfPocketCost := outOfPocketCost];
    NoNullsPut(m4, Key.paybackYears, paybackYears);
    var m5 := m4[Key.paybackYears := paybackYears];
  }

  /** An object whose serialised field values read back as `x`'s fields constructs `x`. */
  lemma CashPurchaseSavingsFromObject(x: CashPurchaseSavings, rebateValue: Value, savings: Value, upfrontCost: Value, outOfPocketCost: Value, paybackYears: Value)
    requires ParseMoney(rebateValue) == Ok(x.rebateValue)
      && ParseSavingsOverTime(savings) == Ok(x.savings)
      && ParseMoney(upfrontCost) == Ok(x.upfrontCost)
      && ParseMoney(outOfPocketCost) == Ok(x.outOfPocketCost)
      && AsFloat(paybackYears) == Ok(x.paybackYears)
    ensures ParseCashPurchaseSavings(Obj(CashPurchaseSavingsObject(rebateValue, savings, upfrontCost, outOfPocketCost, paybackYears))) == Ok(x)
  {
    CashPurchaseSavingsObjectFields(rebateValue, savings, upfrontCost, outOfPocketCost, paybackYears);
    CashPurchaseSavingsFromAccepted(CashPurchaseSavingsObject(rebateValue, savings, upfrontCost, outOfPocketCost, paybackYears), x);
  }

  /** Serialisation of a `CashPurchaseSavings`. */
  function DumpCashPurchaseSavings(x: CashPurchaseSavings, excludeNone: bool): (r: Value)
    ensures r.Obj?
  {
    Obj(CashPurchaseSavingsObject(DumpMoney(x.rebateValue, excludeNone), DumpSavingsOverTime(x.savings, excludeNone), DumpMoney(x.upfrontCost, excludeNone), DumpMoney(x.outOfPocketCost, excludeNone), Num(x.paybackYears)))
  }

  /** The serialised object has exactly the declared keys. */
  lemma DumpCashPurchaseSavingsKeys(x: CashPurchaseSavings, excludeNone: bool)
    ensures DumpCashPurchaseSavings(x, excludeNone).fields.Keys == CashPurchaseSavingsFields
  {
    CashPurchaseSavingsObjectKeys(DumpMoney(x.rebateValue, excludeNone), DumpSavingsOverTime(x.savings, excludeNone), DumpMoney(x.upfrontCost, excludeNone), DumpMoney(x.outOfPocketCost, excludeNone), Num(x.paybackYears));
  }

  /** With unset fields dropped, no `null` appears anywhere in the serialised tree. */
  lemma DumpCashPurchaseSavingsNoNulls(x: CashPurchaseSavings)
    ensures NoNulls(DumpCashPurchaseSavings(x, true))
  {
    DumpMoneyNoNulls(x.rebateValue);
    DumpSavingsOverTimeNoNulls(x.savings);
    DumpMoneyNoNulls(x.upfrontCost);
    DumpMoneyNoNulls(x.outOfPocketCost);
    CashPurchaseSavingsObjectNoNulls(DumpMoney(x.rebateValue, true), DumpSavingsOverTime(x.savings, true), DumpMoney(x.upfrontCost, true), DumpMoney(x.outOfPocketCost, true), Num(x.paybackYears));
  }

  /** Serialising with unset fields dropped and constructing again gives back the same record. */
  lemma CashPurchaseSavingsRoundTrip(x: CashPurchaseSavings)
    requires x.Valid()
    ensures ParseCashPurchaseSavings(DumpCashPurchaseSavings(x, true)) == Ok(x)
  {
    MoneyRoundTrip(x.rebateValue);
    SavingsOverTimeRoundTrip(x.savings);
    MoneyRoundTrip(x.upfrontCost);
    MoneyRoundTrip(x.outOfPocketCost);
    CashPurchaseSavingsFromObject(x, DumpMoney(x.rebateValue, true), DumpSavingsOverTime(x.savings, true), DumpMoney(x.upfrontCost, true), DumpMoney(x.outOfPocketCost, true), Num(x.paybackYears));
  }

  // ---- FinancedPurchaseSavings ---------------------------------------------------

  datatype FinancedPurchaseSavings = FinancedPurchaseSavings(
    annualLoanPayment: Money,
    rebateValue: Money,
    savings: SavingsOverTime,
    loanInterestRate: real)
  {
    predicate Valid() {
      annualLoanPayment.Valid() && rebateValue.Valid() && savings.Valid()
    }
  }

  /** The fields of `FinancedPurchaseSavings` that have no default. */
  const FinancedPurchaseSavingsFields: set<Key> := {Key.annualLoanPayment, Key.rebateValue, Key.savings, Key.loanInterestRate}

  /** Construction of a `FinancedPurchaseSavings` from keyword arguments: every declared field in
      declaration order, the first failure reported at its field. */
  function ParseFinancedPurchaseSavings(v: Value): (r: Parsed<FinancedPurchaseSavings>)
    ensures !v.Obj? ==> r == Err(ValidationError([], ModelType))
    ensures r.Ok? ==> r.value.Valid()
  {
    if !v.Obj? then Fail(ModelType)
    else
      var m := v.fields;
      var annualLoanPayment :- Required(m, Key.annualLoanPayment, ParseMoney);
      var rebateValue :- Required(m, Key.rebateValue, ParseMoney);
      var savings :- Required(m, Key.savings, ParseSavingsOverTime);
      var loanInterestRate :- Required(m, Key.loanInterestRate, AsFloat);
      Ok(FinancedPurchaseSavings(annualLoanPayment, rebateValue, savings, loanInterestRate))
  }

  /** The keyword arguments `m` construct exactly `x`: each field without a default is
      present and reads as `x`'s value,
      and any other key is ignored. */
  predicate FinancedPurchaseSavingsAccepts(m: map<Key, Value>, x: FinancedPurchaseSavings) {
    Key.annualLoanPayment in m && ParseMoney(m[Key.annualLoanPayment]) == Ok(x.annualLoanPayment)
    && Key.rebateValue in m && ParseMoney(m[Key.rebateValue]) == Ok(x.rebateValue)
    && Key.savings in m && ParseSavingsOverTime(m[Key.savings]) == Ok(x.savings)
    && Key.loanInterestRate in m && AsFloat(m[Key.loanInterestRate]) == Ok(x.loanInterestRate)
  }

  lemma FinancedPurchaseSavingsFromAccepted(m: map<Key, Value>, x: FinancedPurchaseSavings)
    requires FinancedPurchaseSavingsAccepts(m, x)
    ensures ParseFinancedPurchaseSavings(Obj(m)) == Ok(x)
  {
  }

  lemma FinancedPurchaseSavingsAcceptedFrom(v: Value)
    requires ParseFinancedPurchaseSavings(v).Ok?
    ensures v.Obj? && FinancedPurchaseSavingsAccepts(v.fields, ParseFinancedPurchaseSavings(v).value)
  {
  }

  /** The object of already-serialised field values. */
  function FinancedPurchaseSavingsObject(annualLoanPayment: Value, rebateValue: Value, savings: Value, loanInterestRate: Value): map<Key, Value> {
    map[Key.annualLoanPayment := annualLoanPayment, Key.rebateValue := rebateValue, Key.savings := savings, Key.loanInterestRate := loanInterestRate]
  }

  lemma FinancedPurchaseSavingsObjectFields(annualLoanPayment: Value, rebateValue: Value, savings: Value, loanInterestRate: Value)
    ensures var m := FinancedPurchaseSavingsObject(annualLoanPayment, rebateValue, savings, loanInterestRate);
      Key.annualLoanPayment in m && m[Key.annualLoanPayment] == annualLoanPayment
      && Key.rebateValue in m && m[Key.rebateValue] == rebateValue
      && Key.savings in m && m[Key.savings] == savings
      && Key.loanInterestRate in m && m[Key.loanInterestRate] == loanInterestRate
  {
  }

  lemma FinancedPurchaseSavingsObjectKeys(annualLoanPayment: Value, rebateValue: Value, savings: Value, loanInterestRate: Value)
    ensures FinancedPurchaseSavingsObject(annualLoanPayment, rebateValue, savings, loanInterestRate).Keys == FinancedPurchaseSavingsFields
  {
  }

  lemma FinancedPurchaseSavingsObjectNoNulls(annualLoanPayment: Value, rebateValue: Value, savings: Value, loanInterestRate: Value)
    requires NoNulls(annualLoanPayment) && NoNulls(rebateValue) && NoNulls(savings) && NoNulls(loanInterestRate)
    ensures NoNulls(Obj(FinancedPurchaseSavingsObject(annualLoanPayment, rebateValue, savings, loanInterestRate)))
  {
    var m0: map<Key, Value> := map[];
    NoNullsPut(m0, Key.annualLoanPayment, annualLoanPayment);
    var m1 := m0[Key.annualLoanPayment := annualLoanPayment];
    NoNullsPut(m1, Key.rebateValue, rebateValue);
    var m2 := m1[Key.rebateValue := rebateValue];
    NoNullsPut(m2, Key.savings, savings);
    var m3 := m2[Key.savings := savings];
    NoNullsPut(m3, Key.loanInterestRate, loanInterestRate);
    var m4 := m3[Key.loanInterestRate := loanInterestRate];
  }

  /** An object whose serialised field values read back as `x`'s fields constructs `x`. */
  lemma FinancedPurchaseSavingsFromObject(x: FinancedPurchaseSavings, annualLoanPayment: Value, rebateValue: Value, savings: Value, loanInterestRate: Value)
    requires ParseMoney(annualLoanPayment) == Ok(x.annualLoanPayment)
      && ParseMoney(rebateValue) == Ok(x.rebateValue)
      && ParseSavingsOverTime(savings) == Ok(x.savings)
      && AsFloat(loanInterestRate) == Ok(x.loanInterestRate)
    ensures ParseFinancedPurchaseSavings(Obj(FinancedPurchaseSavingsObject(annualLoanPayment, rebateValue, savings, loanInterestRate))) == Ok(x)
  {
    FinancedPurchaseSavingsObjectFields(annualLoanPayment, rebateValue, savings, loanInterestRate);
    FinancedPurchaseSavingsFromAccepted(FinancedPurchaseSavingsObject(annualLoanPayment, rebateValue, savings, loanInterestRate), x);
  }

  /** Serialisation of a `FinancedPurchaseSavings`. */
  function DumpFinancedPurchaseSavings(x: FinancedPurchaseSavings, excludeNone: bool): (r: Value)
    ensures r.Obj?
  {
    Obj(FinancedPurchaseSavingsObject(DumpMoney(x.annualLoanPayment, excludeNone), DumpMoney(x.rebateValue, excludeNone), DumpSavingsOverTime(x.savings, excludeNone), Num(x.loanInterestRate)))
  }

  /** The serialised object has exactly the declared keys. */
  lemma DumpFinancedPurchaseSavingsKeys(x: FinancedPurchaseSavings, excludeNone: bool)
    ensures DumpFinancedPurchaseSavings(x, excludeNone).fields.Keys == FinancedPurchaseSavingsFields
  {
    FinancedPurchaseSavingsObjectKeys(DumpMoney(x.annualLoanPayment, excludeNone), DumpMoney(x.rebateValue, excludeNone), DumpSavingsOverTime(x.savings, excludeNone), Num(x.loanInterestRate));
  }

  /** With unset fields dropped, no `null` appears anywhere in the serialised tree. */
  lemma DumpFinancedPurchaseSavingsNoNulls(x: FinancedPurchaseSavings)
    ensures NoNulls(DumpFinancedPurchaseSavings(x, true))
  {
    DumpMoneyNoNulls(x.annualLoanPayment);
    DumpMoneyNoNulls(x.rebateValue);
    DumpSavingsOverTimeNoNulls(x.savings);
    FinancedPurchaseSavingsObjectNoNulls(DumpMoney(x.annualLoanPayment, true), DumpMoney(x.rebateValue, true), DumpSavingsOverTime(x.savings, true), Num(x.loanInterestRate));
  }

  /** Serialising with unset fields dropped and constructing again gives back the same record. */
  lemma FinancedPurchaseSavingsRoundTrip(x: FinancedPurchaseSavings)
    requires x.Valid()
    ensures ParseFinancedPurchaseSavings(DumpFinancedPurchaseSavings(x, true)) == Ok(x)
  {
    MoneyRoundTrip(x.annualLoanPayment);
    MoneyRoundTrip(x.rebateValue);
    SavingsOverTimeRoundTrip(x.savings);
    FinancedPurchaseSavingsFromObject(x, DumpMoney(x.annualLoanPayment, true), DumpMoney(x.rebateValue, true), DumpSavingsOverTime(x.savings, true), Num(x.loanInterestRate));
  }

  // ---- FinancialAnalysis ---------------------------------------------------------

  /** The value of `panelConfigIndex` that means "no layout for this bill". */
  const NoLayout := -1

  datatype FinancialAnalysis = FinancialAnalysis(
    defaultBill: Option<bool>,
    panelConfigIndex: int,
    financialDetails: Option<FinancialDetails>,
    cashPurchaseSavings: Option<CashPurchaseSavings>,
    monthlyBill: Money,
    averageKwhPerMonth: real,
    leasingSavings: Option<LeasingSavings>,
    financedPurchaseSavings: Option<FinancedPurchaseSavings>)
  {
    predicate Valid() {
      (financialDetails.Some? ==> financialDetails.value.Valid())
      && (cashPurchaseSavings.Some? ==> cashPurchaseSavings.value.Valid())
      && monthlyBill.Valid()
      && (leasingSavings.Some? ==> leasingSavings.value.Valid())
      && (financedPurchaseSavings.Some? ==> financedPurchaseSavings.value.Valid())
    }

    /** Documented, not checked: without a layout the sub-analyses are omitted. */
    predicate NoLayoutOmitsDetails() {
      panelConfigIndex == NoLayout ==>
        financialDetails.None? && cashPurchaseSavings.None? && leasingSavings.None? && financedPurchaseSavings.None?
    }

    /** Documented, not checked: the index is `NoLayout` or a position in a list of `configCount` layouts. */
    predicate LayoutIndexInRange(configCount: nat) {
      panelConfigIndex == NoLayout || 0 <= panelConfigIndex < configCount
    }
  }

  /** The fields of `FinancialAnalysis` that have no default. */
  const FinancialAnalysisFields: set<Key> := {Key.panelConfigIndex, Key.monthlyBill, Key.averageKwhPerMonth}
  /** The fields of `FinancialAnalysis` that default to unset. */
  const FinancialAnalysisOptionalFields: set<Key> := {Key.defaultBill, Key.financialDetails, Key.cashPurchaseSavings, Key.leasingSavings, Key.financedPurchaseSavings}

  /** Construction of a `FinancialAnalysis` from keyword arguments: every declared field in
      declaration order, the first failure reported at its field. */
  function ParseFinancialAnalysis(v: Value): (r: Parsed<FinancialAnalysis>)
    ensures !v.Obj? ==> r == Err(ValidationError([], ModelType))
    ensures r.Ok? ==> r.value.Valid()
  {
    if !v.Obj? then Fail(ModelType)
    else
      var m := v.fields;
      var defaultBill :- Optional(m, Key.defaultBill, AsBool);
      var panelConfigIndex :- Required(m, Key.panelConfigIndex, AsInt);
      var financialDetails :- Optional(m, Key.financialDetails, ParseFinancialDetails);
      var cashPurchaseSavings :- Optional(m, Key.cashPurchaseSavings, ParseCashPurchaseSavings);
      var monthlyBill :- Required(m, Key.monthlyBill, ParseMoney);
      var averageKwhPerMonth :- Required(m, Key.averageKwhPerMonth, AsFloat);
      var leasingSavings :- Optional(m, Key.leasingSavings, ParseLeasingSavings);
      var financedPurchaseSavings :- Optional(m, Key.financedPurchaseSavings, ParseFinancedPurchaseSavings);
      Ok(FinancialAnalysis(defaultBill, panelConfigIndex, financialDetails, cashPurchaseSavings, monthlyBill, averageKwhPerMonth, leasingSavings, financedPurchaseSavings))
  }

  /** The keyword arguments `m` construct exactly `x`: each field without a default is
      present and reads as `x`'s value, each defaulted field is absent when `x` leaves it unset,
      and any other key is ignored. */
  predicate FinancialAnalysisAccepts(m: map<Key, Value>, x: FinancialAnalysis) {
    (if x.defaultBill.Some? then Key.defaultBill in m && AsBool(m[Key.defaultBill]) == Ok(x.defaultBill.value) else Key.defaultBill !in m)
    && Key.panelConfigIndex in m && AsInt(m[Key.panelConfigIndex]) == Ok(x.panelConfigIndex)
    && (if x.financialDetails.Some? then Key.financialDetails in m && ParseFinancialDetails(m[Key.financialDetails]) == Ok(x.financialDetails.value) else Key.financialDetails !in m)
    && (if x.cashPurchaseSavings.Some? then Key.cashPurchaseSavings in m && ParseCashPurchaseSavings(m[Key.cashPurchaseSavings]) == Ok(x.cashPurchaseSavings.value) else Key.cashPurchaseSavings !in m)
    && Key.monthlyBill in m && ParseMoney(m[Key.monthlyBill]) == Ok(x.monthlyBill)
    && Key.averageKwhPerMonth in m && AsFloat(m[Key.averageKwhPerMonth]) == Ok(x.averageKwhPerMonth)
    && (if x.leasingSavings.Some? then Key.leasingSavings in m && ParseLeasingSavings(m[Key.leasingSavings]) == Ok(x.leasingSavings.value) else Key.leasingSavings !in m)
    && (if x.financedPurchaseSavings.Some? then Key.financedPurchaseSavings in m && ParseFinancedPurchaseSavings(m[Key.financedPurchaseSavings]) == Ok(x.financedPurchaseSavings.value) else Key.financedPurchaseSavings !in m)
  }

  lemma FinancialAnalysisFromAccepted(m: map<Key, Value>, x: FinancialAnalysis)
    requires FinancialAnalysisAccepts(m, x)
    ensures ParseFinancialAnalysis(Obj(m)) == Ok(x)
  {
  }

  lemma FinancialAnalysisAcceptedFrom(v: Value)
    requires ParseFinancialAnalysis(v).Ok?
    ensures v.Obj? && FinancialAnalysisAccepts(v.fields, ParseFinancialAnalysis(v).value)
  {
  }

  /** The object of already-serialised field values. */
  function FinancialAnalysisObject(panelConfigIndex: Value, monthlyBill: Value, averageKwhPerMonth: Value, defaultBill: Option<Value>, financialDetails: Option<Value>, cashPurchaseSavings: Option<Value>, leasingSavings: Option<Value>, financedPurchaseSavings: Option<Value>, excludeNone: bool): map<Key, Value> {
    PutOptional(PutOptional(PutOptional(PutOptional(PutOptional(map[Key.panelConfigIndex := panelConfigIndex, Key.monthlyBill := monthlyBill, Key.averageKwhPerMonth := averageKwhPerMonth], Key.defaultBill, defaultBill, excludeNone), Key.financialDetails, financialDetails, excludeNone), Key.cashPurchaseSavings, cashPurchaseSavings, excludeNone), Key.leasingSavings, leasingSavings, excludeNone), Key.financedPurchaseSavings, financedPurchaseSavings, excludeNone)
  }

  lemma FinancialAnalysisObjectFields(panelConfigIndex: Value, monthlyBill: Value, averageKwhPerMonth: Value, defaultBill: Option<Value>, financialDetails: Option<Value>, cashPurchaseSavings: Option<Value>, leasingSavings: Option<Value>, financedPurchaseSavings: Option<Value>, excludeNone: bool)
    ensures var m := FinancialAnalysisObject(panelConfigIndex, monthlyBill, averageKwhPerMonth, defaultBill, financialDetails, cashPurchaseSavings, leasingSavings, financedPurchaseSavings, excludeNone);
      Key.panelConfigIndex in m && m[Key.panelConfigIndex] == panelConfigIndex
      && Key.monthlyBill in m && m[Key.monthlyBill] == monthlyBill
      && Key.averageKwhPerMonth in m && m[Key.averageKwhPerMonth] == averageKwhPerMonth
      && (Key.defaultBill in m <==> defaultBill.Some? || !excludeNone)
      && (defaultBill.Some? ==> m[Key.defaultBill] == defaultBill.value)
      && (defaultBill.None? && !excludeNone ==> m[Key.defaultBill] == Null)
      && (Key.financialDetails in m <==> financialDetails.Some? || !excludeNone)
      && (financialDetails.Some? ==> m[Key.financialDetails] == financialDetails.value)
      && (financialDetails.None? && !excludeNone ==> m[Key.financialDetails] == Null)
      && (Key.cashPurchaseSavings in m <==> cashPurchaseSavings.Some? || !excludeNone)
      && (cashPurchaseSavings.Some? ==> m[Key.cashPurchaseSavings] == cashPurchaseSavings.value)
      && (cashPurchaseSavings.None? && !excludeNone ==> m[Key.cashPurchaseSavings] == Null)
      && (Key.leasingSavings in m <==> leasingSavings.Some? || !excludeNone)
      && (leasingSavings.Some? ==> m[Key.leasingSavings] == leasingSavings.value)
      && (leasingSavings.None? && !excludeNone ==> m[Key.leasingSavings] == Null)
      && (Key.financedPurchaseSavings in m <==> financedPurchaseSavings.Some? || !excludeNone)
      && (financedPurchaseSavings.Some? ==> m[Key.financedPurchaseSavings] == financedPurchaseSavings.value)
      && (financedPurchaseSavings.None? && !excludeNone ==> m[Key.financedPurchaseSavings] == Null)
  {
  }

  lemma FinancialAnalysisObjectKeys(panelConfigIndex: Value, monthlyBill: Value, averageKwhPerMonth: Value, defaultBill: Option<Value>, financialDetails: Option<Value>, cashPurchaseSavings: Option<Value>, leasingSavings: Option<Value>, financedPurchaseSavings: Option<Value>, excludeNone: bool)
    ensures FinancialAnalysisObject(panelConfigIndex, monthlyBill, averageKwhPerMonth, defaultBill, financialDetails, cashPurchaseSavings, leasingSavings, financedPurchaseSavings, excludeNone).Keys == FinancialAnalysisFields + (if defaultBill.Some? || !excludeNone then {Key.defaultBill} else {}) + (if financialDetails.Some? || !excludeNone then {Key.financialDetails} else {}) + (if cashPurchaseSavings.Some? || !excludeNone then {Key.cashPurchaseSavings} else {}) + (if leasingSavings.Some? || !excludeNone then {Key.leasingSavings} else {}) + (if financedPurchaseSavings.Some? || !excludeNone then {Key.financedPurchaseSavings} else {})
  {
  }

  lemma FinancialAnalysisObjectNoNulls(panelConfigIndex: Value, monthlyBill: Value, averageKwhPerMonth: Value, defaultBill: Option<Value>, financialDetails: Option<Value>, cashPurchaseSavings: Option<Value>, leasingSavings: Option<Value>, financedPurchaseSavings: Option<Value>, excludeNone: bool)
    requires excludeNone && NoNulls(panelConfigIndex) && NoNulls(monthlyBill) && NoNulls(averageKwhPerMonth) && (defaultBill.Some? ==> NoNulls(defaultBill.value)) && (financialDetails.Some? ==> NoNulls(financialDetails.value)) && (cashPurchaseSavings.Some? ==> NoNulls(cashPurchaseSavings.value)) && (leasingSavings.Some? ==> NoNulls(leasingSavings.value)) && (financedPurchaseSavings.Some? ==> NoNulls(financedPurchaseSavings.value))
    ensures NoNulls(Obj(FinancialAnalysisObject(panelConfigIndex, monthlyBill, averageKwhPerMonth, defaultBill, financialDetails, cashPurchaseSavings, leasingSavings, financedPurchaseSavings, excludeNone)))
  {
    var m0: map<Key, Value> := map[];
    NoNullsPut(m0, Key.panelConfigIndex, panelConfigIndex);
    var m1 := m0[Key.panelConfigIndex := panelConfigIndex];
    NoNullsPut(m1, Key.monthlyBill, monthlyBill);
    var m2 := m1[Key.monthlyBill := monthlyBill];
    NoNullsPut(m2, Key.averageKwhPerMonth, averageKwhPerMonth);
    var m3 := m2[Key.averageKwhPerMonth := averageKwhPerMonth];
    NoNullsPutOptional(m3, Key.defaultBill, defaultBill);
    var m4 := PutOptional(m3, Key.defaultBill, defaultBill, true);
    NoNullsPutOptional(m4, Key.financialDetails, financialDetails);
    var m5 := PutOptional(m4, Key.financialDetails, financialDetails, true);
    NoNullsPutOptional(m5, Key.cashPurchaseSavings, cashPurchaseSavings);
    var m6 := PutOptional(m5, Key.cashPurchaseSavings, cashPurchaseSavings, true);
    NoNullsPutOptional(m6, Key.leasingSavings, leasingSavings);
    var m7 := PutOptional(m6, Key.leasingSavings, leasingSavings, true);
    NoNullsPutOptional(m7, Key.financedPurchaseSavings, financedPurchaseSavings);
    var m8 := PutOptional(m7, Key.financedPurchaseSavings, financedPurchaseSavings, true);
  }

  /** An object whose serialised field values read back as `x`'s fields constructs `x`. */
  lemma FinancialAnalysisFromObject(x: FinancialAnalysis, panelConfigIndex: Value, monthlyBill: Value, averageKwhPerMonth: Value, defaultBill: Option<Value>, financialDetails: Option<Value>, cashPurchaseSavings: Option<Value>, leasingSavings: Option<Value>, financedPurchaseSavings: Option<Value>)
    requires AsInt(panelConfigIndex) == Ok(x.panelConfigIndex)
      && ParseMoney(monthlyBill) == Ok(x.monthlyBill)
      && AsFloat(averageKwhPerMonth) == Ok(x.averageKwhPerMonth)
      && (if x.defaultBill.Some? then defaultBill.Some? && AsBool(defaultBill.value) == Ok(x.defaultBill.value) else defaultBill.None?)
      && (if x.financialDetails.Some? then financialDetails.Some? && ParseFinancialDetails(financialDetails.value) == Ok(x.financialDetails.value) else financialDetails.None?)
      && (if x.cashPurchaseSavings.Some? then cashPurchaseSavings.Some? && ParseCashPurchaseSavings(cashPurchaseSavings.value) == Ok(x.cashPurchaseSavings.value) else cashPurchaseSavings.None?)
      && (if x.leasingSavings.Some? then leasingSavings.Some? && ParseLeasingSavings(leasingSavings.value) == Ok(x.leasingSavings.value) else leasingSavings.None?)
      && (if x.financedPurchaseSavings.Some? then financedPurchaseSavings.Some? && ParseFinancedPurchaseSavings(financedPurchaseSavings.value) == Ok(x.financedPurchaseSavings.value) else financedPurchaseSavings.None?)
    ensures ParseFinancialAnalysis(Obj(FinancialAnalysisObject(panelConfigIndex, monthlyBill, averageKwhPerMonth, defaultBill, financialDetails, cashPurchaseSavings, leasingSavings, financedPurchaseSavings, true))) == Ok(x)
  {
    FinancialAnalysisObjectFields(panelConfigIndex, monthlyBill, averageKwhPerMonth, defaultBill, financialDetails, cashPurchaseSavings, leasingSavings, financedPurchaseSavings, true);
    FinancialAnalysisFromAccepted(FinancialAnalysisObject(panelConfigIndex, monthlyBill, averageKwhPerMonth, defaultBill, financialDetails, cashPurchaseSavings, leasingSavings, financedPurchaseSavings, true), x);
  }

  /** Serialisation of a `FinancialAnalysis`; an unset field is dropped when `excludeNone` holds and written as `null` otherwise. */
  function DumpFinancialAnalysis(x: FinancialAnalysis, excludeNone: bool): (r: Value)
    ensures r.Obj?
  {
    Obj(FinancialAnalysisObject(Num(x.panelConfigIndex as real), DumpMoney(x.monthlyBill, excludeNone), Num(x.averageKwhPerMonth), if x.defaultBill.Some? then Some(Bool(x.defaultBill.value)) else None, if x.financialDetails.Some? then Some(DumpFinancialDetails(x.financialDetails.value, excludeNone)) else None, if x.cashPurchaseSavings.Some? then Some(DumpCashPurchaseSavings(x.cashPurchaseSavings.value, excludeNone)) else None, if x.leasingSavings.Some? then Some(DumpLeasingSavings(x.leasingSavings.value, excludeNone)) else None, if x.financedPurchaseSavings.Some? then Some(DumpFinancedPurchaseSavings(x.financedPurchaseSavings.value, excludeNone)) else None, excludeNone))
  }

  /** The serialised object has exactly the declared keys, minus the unset ones when they are dropped. */
  lemma DumpFinancialAnalysisKeys(x: FinancialAnalysis, excludeNone: bool)
    ensures DumpFinancialAnalysis(x, excludeNone).fields.Keys == FinancialAnalysisFields + (if x.defaultBill.Some? || !excludeNone then {Key.defaultBill} else {}) + (if x.financialDetails.Some? || !excludeNone then {Key.financialDetails} else {}) + (if x.cashPurchaseSavings.Some? || !excludeNone then {Key.cashPurchaseSavings} else {}) + (if x.leasingSavings.Some? || !excludeNone then {Key.leasingSavings} else {}) + (if x.financedPurchaseSavings.Some? || !excludeNone then {Key.financedPurchaseSavings} else {})
  {
    FinancialAnalysisObjectKeys(Num(x.panelConfigIndex as real), DumpMoney(x.monthlyBill, excludeNone), Num(x.averageKwhPerMonth), if x.defaultBill.Some? then Some(Bool(x.defaultBill.value)) else None, if x.financialDetails.Some? then Some(DumpFinancialDetails(x.financialDetails.value, excludeNone)) else None, if x.cashPurchaseSavings.Some? then Some(DumpCashPurchaseSavings(x.cashPurchaseSavings.value, excludeNone)) else None, if x.leasingSavings.Some? then Some(DumpLeasingSavings(x.leasingSavings.value, excludeNone)) else None, if x.financedPurchaseSavings.Some? then Some(DumpFinancedPurchaseSavings(x.financedPurchaseSavings.value, excludeNone)) else None, excludeNone);
  }

  /** With unset fields dropped, no `null` appears anywhere in the serialised tree. */
  lemma DumpFinancialAnalysisNoNulls(x: FinancialAnalysis)
    ensures NoNulls(DumpFinancialAnalysis(x, true))
  {
    DumpMoneyNoNulls(x.monthlyBill);
    if x.financialDetails.Some? { DumpFinancialDetailsNoNulls(x.financialDetails.value); }
    if x.cashPurchaseSavings.Some? { DumpCashPurchaseSavingsNoNulls(x.cashPurchaseSavings.value); }
    if x.leasingSavings.Some? { DumpLeasingSavingsNoNulls(x.leasingSavings.value); }
    if x.financedPurchaseSavings.Some? { DumpFinancedPurchaseSavingsNoNulls(x.financedPurchaseSavings.value); }
    FinancialAnalysisObjectNoNulls(Num(x.panelConfigIndex as real), DumpMoney(x.monthlyBill, true), Num(x.averageKwhPerMonth), if x.defaultBill.Some? then Some(Bool(x.defaultBill.value)) else None, if x.financialDetails.Some? then Some(DumpFinancialDetails(x.financialDetails.value, true)) else None, if x.cashPurchaseSavings.Some? then Some(DumpCashPurchaseSavings(x.cashPurchaseSavings.value, true)) else None, if x.leasingSavings.Some? then Some(DumpLeasingSavings(x.leasingSavings.value, true)) else None, if x.financedPurchaseSavings.Some? then Some(DumpFinancedPurchaseSavings(x.financedPurchaseSavings.value, true)) else None, true);
  }

  /** Serialising with unset fields dropped and constructing again gives back the same record. */
  lemma FinancialAnalysisRoundTrip(x: FinancialAnalysis)
    requires x.Valid()
    ensures ParseFinancialAnalysis(DumpFinancialAnalysis(x, true)) == Ok(x)
  {
    assert x.financialDetails.Some? ==> ParseFinancialDetails(DumpFinancialDetails(x.financialDetails.value, true)) == Ok(x.financialDetails.value) by {
      if x.financialDetails.Some? { FinancialDetailsRoundTrip(x.financialDetails.value); }
    }
    assert x.cashPurchaseSavings.Some? ==> ParseCashPurchaseSavings(DumpCashPurchaseSavings(x.cashPurchaseSavings.value, true)) == Ok(x.cashPurchaseSavings.value) by {
      if x.cashPurchaseSavings.Some? { CashPurchaseSavingsRoundTrip(x.cashPurchaseSavings.value); }
    }
    MoneyRoundTrip(x.monthlyBill);
    assert x.leasingSavings.Some? ==> ParseLeasingSavings(DumpLeasingSavings(x.leasingSavings.value, true)) == Ok(x.leasingSavings.value) by {
      if x.leasingSavings.Some? { LeasingSavingsRoundTrip(x.leasingSavings.value); }
    }
    assert x.financedPurchaseSavings.Some? ==> ParseFinancedPurchaseSavings(DumpFinancedPurchaseSavings(x.financedPurchaseSavings.value, true)) == Ok(x.financedPurchaseSavings.value) by {
      if x.financedPurchaseSavings.Some? { FinancedPurchaseSavingsRoundTrip(x.financedPurchaseSavings.value); }
    }
    FinancialAnalysisFromObject(x, Num(x.panelConfigIndex as real), DumpMoney(x.monthlyBill, true), Num(x.averageKwhPerMonth), if x.defaultBill.Some? then Some(Bool(x.defaultBill.value)) else None, if x.financialDetails.Some? then Some(DumpFinancialDetails(x.financialDetails.value, true)) else None, if x.cashPurchaseSavings.Some? then Some(DumpCashPurchaseSavings(x.cashPurchaseSavings.value, true)) else None, if x.leasingSavings.Some? then Some(DumpLeasingSavings(x.leasingSavings.value, true)) else None, if x.financedPurchaseSavings.Some? then Some(DumpFinancedPurchaseSavings(x.financedPurchaseSavings.value, true)) else None);
  }

  /** A list of `FinancialAnalysis` records. */
  function AsAnalyses(v: Value): (r: Parsed<seq<FinancialAnalysis>>)
    ensures r.Ok? ==> v.Arr? && |r.value| == |v.items|
    ensures r.Ok? ==> forall j :: 0 <= j < |v.items| ==> ParseFinancialAnalysis(v.items[j]) == Ok(r.value[j])
    ensures r.Ok? ==> forall j :: 0 <= j < |r.value| ==> r.value[j].Valid()
  {
    AsList(v, ParseFinancialAnalysis)
  }

  function DumpAnalyses(xs: seq<FinancialAnalysis>, excludeNone: bool): (r: Value)
    ensures r.Arr? && |r.items| == |xs|
    ensures forall i :: 0 <= i < |xs| ==> r.items[i] == DumpFinancialAnalysis(xs[i], excludeNone)
  {
    Arr(seq(|xs|, i requires 0 <= i < |xs| => DumpFinancialAnalysis(xs[i], excludeNone)))
  }

  lemma AnalysesRoundTrip(xs: seq<FinancialAnalysis>)
    requires forall i :: 0 <= i < |xs| ==> xs[i].Valid()
    ensures AsAnalyses(DumpAnalyses(xs, true)) == Ok(xs)
  {
    forall i | 0 <= i < |xs|
      ensures ParseFinancialAnalysis(DumpAnalyses(xs, true).items[i]) == Ok(xs[i])
    {
      FinancialAnalysisRoundTrip(xs[i]);
    }
    ListRoundTrip(xs, DumpAnalyses(xs, true).items, ParseFinancialAnalysis);
  }

  lemma AnalysesNoNulls(xs: seq<FinancialAnalysis>)
    ensures NoNulls(DumpAnalyses(xs, true))
  {
    forall i | 0 <= i < |xs|
      ensures NoNulls(DumpAnalyses(xs, true).items[i])
    {
      DumpFinancialAnalysisNoNulls(xs[i]);
    }
  }

  // ---- lists of analyses -----------------------------------------------------------

  /** How many analyses are marked as the default bill. */
  function DefaultBillCount(xs: seq<FinancialAnalysis>): (n: nat)
    ensures n <= |xs|
    ensures n == 0 <==> forall i :: 0 <= i < |xs| ==> xs[i].defaultBill != Some(true)
  {
    if xs == [] then 0
    else DefaultBillCount(xs[..|xs| - 1]) + (if xs[|xs| - 1].defaultBill == Some(true) then 1 else 0)
  }

  /** Documented, not checked: exactly one analysis of a building has `defaultBill` set to true. */
  predicate ExactlyOneDefaultBill(xs: seq<FinancialAnalysis>) {
    DefaultBillCount(xs) == 1
  }

  /** Documented, not checked: the analyses are in strictly increasing order of monthly bill. */
  predicate BillsIncreasing(xs: seq<FinancialAnalysis>) {
    (forall i :: 0 <= i < |xs| ==> AmountNanos(xs[i].monthlyBill).Some?)
    && forall i, j :: 0 <= i < j < |xs| ==> AmountNanos(xs[i].monthlyBill).value < AmountNanos(xs[j].monthlyBill).value
  }

  /** The one analysis marked as default, when no other is, makes exactly one default bill. */
  lemma {:induction false} SingleDefaultBill(xs: seq<FinancialAnalysis>, i: nat)
    requires i < |xs| && xs[i].defaultBill == Some(true)
    requires forall j :: 0 <= j < |xs| && j != i ==> xs[j].defaultBill != Some(true)
    ensures ExactlyOneDefaultBill(xs)
  {
    var init := xs[..|xs| - 1];
    assert forall j :: 0 <= j < |init| ==> init[j] == xs[j];
    if i < |xs| - 1 {
      SingleDefaultBill(init, i);
    } else {
      assert DefaultBillCount(init) == 0;
    }
  }

  /** Conversely, exactly one default bill has a position, and no other analysis is marked. */
  lemma {:induction false} DefaultBillPosition(xs: seq<FinancialAnalysis>) returns (i: nat)
    requires ExactlyOneDefaultBill(xs)
    ensures i < |xs| && xs[i].defaultBill == Some(true)
    ensures forall j :: 0 <= j < |xs| && j != i ==> xs[j].defaultBill != Some(true)
  {
    var init := xs[..|xs| - 1];
    assert forall j :: 0 <= j < |init| ==> init[j] == xs[j];
    if xs[|xs| - 1].defaultBill == Some(true) {
      assert DefaultBillCount(init) == 0;
      i := |xs| - 1;
    } else {
      i := DefaultBillPosition(init);
    }
  }
}
