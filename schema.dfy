/** The schema registry and the schema builders of solar_api_mock/core/schema.py.

    A builder is created for a schema name, which must be in the registry.
    Constructing its model looks up the record class named after the schema,
    has the builder produce that record's keyword arguments, constructs the
    record from them and pairs it with the schema's name and description. Only
    the building-insights and data-layers builders produce arguments; the plain
    builder produces none, and its model is refused. */
module Schema {
  import opened Wrappers
  import opened Json
  import opened Common
  import opened Financial
  import opened Solar
  import opened Insights
  import opened Layers
  import opened Fixtures

  // ---- the registry ------------------------------------------------------------------

  /** The registered schemas, in registry order. */
  datatype SchemaName =
    | FinancialDetailsSchema
    | RoofSegmentSizeAndSunshineStatsSchema
    | SizeAndSunshineStatsSchema
    | DataLayersSchema
    | MoneySchema
    | LeasingSavingsSchema
    | CashPurchaseSavingsSchema
    | SavingsOverTimeSchema
    | HttpBodySchema
    | BuildingInsightsSchema
    | FinancedPurchaseSavingsSchema
    | SolarPotentialSchema
    | SolarPanelSchema
    | DateSchema
    | FinancialAnalysisSchema
    | RoofSegmentSummarySchema
    | SolarPanelConfigSchema
    | LatLngSchema
    | LatLngBoxSchema

  /** The name a schema is registered under. */
  function NameOf(s: SchemaName): string {
    match s
    case FinancialDetailsSchema => "FinancialDetails"
    case RoofSegmentSizeAndSunshineStatsSchema => "RoofSegmentSizeAndSunshineStats"
    case SizeAndSunshineStatsSchema => "SizeAndSunshineStats"
    case DataLayersSchema => "DataLayers"
    case MoneySchema => "Money"
    case LeasingSavingsSchema => "LeasingSavings"
    case CashPurchaseSavingsSchema => "CashPurchaseSavings"
    case SavingsOverTimeSchema => "SavingsOverTime"
    case HttpBodySchema => "HttpBody"
    case BuildingInsightsSchema => "BuildingInsights"
    case FinancedPurchaseSavingsSchema => "FinancedPurchaseSavings"
    case SolarPotentialSchema => "SolarPotential"
    case SolarPanelSchema => "SolarPanel"
    case DateSchema => "Date"
    case FinancialAnalysisSchema => "FinancialAnalysis"
    case RoofSegmentSummarySchema => "RoofSegmentSummary"
    case SolarPanelConfigSchema => "SolarPanelConfig"
    case LatLngSchema => "LatLng"
    case LatLngBoxSchema => "LatLngBox"
  }

  /** The first sentence of a schema's registered description. */
  function Description(s: SchemaName): string {
    match s
    case FinancialDetailsSchema => "Details of a financial analysis."
    case RoofSegmentSizeAndSunshineStatsSchema => "Information about the size and sunniness quantiles of a roof segment."
    case SizeAndSunshineStatsSchema => "Size and sunniness quantiles of a roof, or part of a roof."
    case DataLayersSchema => "Information about the solar potential of a region."
    case MoneySchema => "Represents an amount of money with its currency type."
    case LeasingSavingsSchema => "Cost and benefit of leasing a particular configuration of solar panels with a particular electricity usage."
    case CashPurchaseSavingsSchema => "Cost and benefit of an outright purchase of a particular configuration of solar panels with a particular electricity usage."
    case SavingsOverTimeSchema => "Financial information that's shared between different financing methods."
    case HttpBodySchema => "Message that represents an arbitrary HTTP body."
    case BuildingInsightsSchema => "Response message for `Solar.FindClosestBuildingInsights`."
    case FinancedPurchaseSavingsSchema => "Cost and benefit of using a loan to buy a particular configuration of solar panels with a particular electricity usage."
    case SolarPotentialSchema => "Information about the solar potential of a building."
    case SolarPanelSchema => "SolarPanel describes the position, orientation, and production of a single solar panel."
    case DateSchema => "Represents a whole or partial calendar date, such as a birthday."
    case FinancialAnalysisSchema => "Analysis of the cost and benefits of the optimum solar layout for a particular electric bill size."
    case RoofSegmentSummarySchema => "Information about a roof segment on the building, with some number of panels placed on it."
    case SolarPanelConfigSchema => "SolarPanelConfig describes a particular placement of solar panels on the roof."
    case LatLngSchema => "An object that represents a latitude/longitude pair."
    case LatLngBoxSchema => "A bounding box in lat/lng coordinates."
  }

  /** Membership in the registry: the schema registered under `name`, if any. */
  function Lookup(name: string): (r: Option<SchemaName>)
    ensures r.Some? ==> NameOf(r.value) == name
    ensures r.None? ==> forall s :: NameOf(s) != name
  {
    if name == "FinancialDetails" then Some(FinancialDetailsSchema)
    else if name == "RoofSegmentSizeAndSunshineStats" then Some(RoofSegmentSizeAndSunshineStatsSchema)
    else if name == "SizeAndSunshineStats" then Some(SizeAndSunshineStatsSchema)
    else if name == "DataLayers" then Some(DataLayersSchema)
    else if name == "Money" then Some(MoneySchema)
    else if name == "LeasingSavings" then Some(LeasingSavingsSchema)
    else if name == "CashPurchaseSavings" then Some(CashPurchaseSavingsSchema)
    else if name == "SavingsOverTime" then Some(SavingsOverTimeSchema)
    else if name == "HttpBody" then Some(HttpBodySchema)
    else if name == "BuildingInsights" then Some(BuildingInsightsSchema)
    else if name == "FinancedPurchaseSavings" then Some(FinancedPurchaseSavingsSchema)
    else if name == "SolarPotential" then Some(SolarPotentialSchema)
    else if name == "SolarPanel" then Some(SolarPanelSchema)
    else if name == "Date" then Some(DateSchema)
    else if name == "FinancialAnalysis" then Some(FinancialAnalysisSchema)
    else if name == "RoofSegmentSummary" then Some(RoofSegmentSummarySchema)
    else if name == "SolarPanelConfig" then Some(SolarPanelConfigSchema)
    else if name == "LatLng" then Some(LatLngSchema)
    else if name == "LatLngBox" then Some(LatLngBoxSchema)
    else None
  }

  // ---- the record classes --------------------------------------------------------------

  /** The record classes of the properties package; the class of schema `S` is named `SProperties`. */
  datatype PropertiesClass =
    | FinancialDetailsProperties
    | RoofSegmentSizeAndSunshineStatsProperties
    | SizeAndSunshineStatsProperties
    | DataLayersProperties
    | MoneyProperties
    | LeasingSavingsProperties
    | CashPurchaseSavingsProperties
    | SavingsOverTimeProperties
    | BuildingInsightsProperties
    | FinancedPurchaseSavingsProperties
    | SolarPotentialProperties
    | SolarPanelProperties
    | DateProperties
    | FinancialAnalysisProperties
    | RoofSegmentSummaryProperties
    | SolarPanelConfigProperties
    | LatLngProperties
    | LatLngBoxProperties

  /** The lookup of the class named `{name}Properties` in the properties package: every
      registered schema has one except `HttpBody`. */
  function ClassOfSchema(s: SchemaName): (r: Option<PropertiesClass>)
    ensures r.None? <==> s == HttpBodySchema
  {
    match s
    case FinancialDetailsSchema => Some(FinancialDetailsProperties)
    case RoofSegmentSizeAndSunshineStatsSchema => Some(RoofSegmentSizeAndSunshineStatsProperties)
    case SizeAndSunshineStatsSchema => Some(SizeAndSunshineStatsProperties)
    case DataLayersSchema => Some(DataLayersProperties)
    case MoneySchema => Some(MoneyProperties)
    case LeasingSavingsSchema => Some(LeasingSavingsProperties)
    case CashPurchaseSavingsSchema => Some(CashPurchaseSavingsProperties)
    case SavingsOverTimeSchema => Some(SavingsOverTimeProperties)
    case HttpBodySchema => None
    case BuildingInsightsSchema => Some(BuildingInsightsProperties)
    case FinancedPurchaseSavingsSchema => Some(FinancedPurchaseSavingsProperties)
    case SolarPotentialSchema => Some(SolarPotentialProperties)
    case SolarPanelSchema => Some(SolarPanelProperties)
    case DateSchema => Some(DateProperties)
    case FinancialAnalysisSchema => Some(FinancialAnalysisProperties)
    case RoofSegmentSummarySchema => Some(RoofSegmentSummaryProperties)
    case SolarPanelConfigSchema => Some(SolarPanelConfigProperties)
    case LatLngSchema => Some(LatLngProperties)
    case LatLngBoxSchema => Some(LatLngBoxProperties)
  }

  /** A record of any of the classes. */
  datatype SchemaProperties =
    | OfFinancialDetails(financialDetails: FinancialDetails)
    | OfRoofSegmentSizeAndSunshineStats(roofSegmentStats: RoofSegmentSizeAndSunshineStats)
    | OfSizeAndSunshineStats(stats: SizeAndSunshineStats)
    | OfDataLayers(dataLayers: DataLayers)
    | OfMoney(money: Money)
    | OfLeasingSavings(leasingSavings: LeasingSavings)
    | OfCashPurchaseSavings(cashPurchaseSavings: CashPurchaseSavings)
    | OfSavingsOverTime(savingsOverTime: SavingsOverTime)
    | OfBuildingInsights(buildingInsights: BuildingInsights)
    | OfFinancedPurchaseSavings(financedPurchaseSavings: FinancedPurchaseSavings)
    | OfSolarPotential(solarPotential: SolarPotential)
    | OfSolarPanel(solarPanel: SolarPanel)
    | OfDate(date: Date)
    | OfFinancialAnalysis(financialAnalysis: FinancialAnalysis)
    | OfRoofSegmentSummary(roofSegmentSummary: RoofSegmentSummary)
    | OfSolarPanelConfig(solarPanelConfig: SolarPanelConfig)
    | OfLatLng(latLng: LatLng)
    | OfLatLngBox(latLngBox: LatLngBox)

  function ClassOf(p: SchemaProperties): PropertiesClass {
    match p
    case OfFinancialDetails(_) => FinancialDetailsProperties
    case OfRoofSegmentSizeAndSunshineStats(_) => RoofSegmentSizeAndSunshineStatsProperties
    case OfSizeAndSunshineStats(_) => SizeAndSunshineStatsProperties
    case OfDataLayers(_) => DataLayersProperties
    case OfMoney(_) => MoneyProperties
    case OfLeasingSavings(_) => LeasingSavingsProperties
    case OfCashPurchaseSavings(_) => CashPurchaseSavingsProperties
    case OfSavingsOverTime(_) => SavingsOverTimeProperties
    case OfBuildingInsights(_) => BuildingInsightsProperties
    case OfFinancedPurchaseSavings(_) => FinancedPurchaseSavingsProperties
    case OfSolarPotential(_) => SolarPotentialProperties
    case OfSolarPanel(_) => SolarPanelProperties
    case OfDate(_) => DateProperties
    case OfFinancialAnalysis(_) => FinancialAnalysisProperties
    case OfRoofSegmentSummary(_) => RoofSegmentSummaryProperties
    case OfSolarPanelConfig(_) => SolarPanelConfigProperties
    case OfLatLng(_) => LatLngProperties
    case OfLatLngBox(_) => LatLngBoxProperties
  }

  /** Calling a record class: construction of its record from keyword arguments. */
  function Constructor(c: PropertiesClass): Value -> Parsed<SchemaProperties> {
    match c
    case FinancialDetailsProperties => args => var x :- ParseFinancialDetails(args); Ok(OfFinancialDetails(x))
    case RoofSegmentSizeAndSunshineStatsProperties => args => var x :- ParseSegmentStats(args); Ok(OfRoofSegmentSizeAndSunshineStats(x))
    case SizeAndSunshineStatsProperties => args => var x :- ParseStats(args); Ok(OfSizeAndSunshineStats(x))
    case DataLayersProperties => args => var x :- ParseDataLayers(args); Ok(OfDataLayers(x))
    case MoneyProperties => args => var x :- ParseMoney(args); Ok(OfMoney(x))
    case LeasingSavingsProperties => args => var x :- ParseLeasingSavings(args); Ok(OfLeasingSavings(x))
    case CashPurchaseSavingsProperties => args => var x :- ParseCashPurchaseSavings(args); Ok(OfCashPurchaseSavings(x))
    case SavingsOverTimeProperties => args => var x :- ParseSavingsOverTime(args); Ok(OfSavingsOverTime(x))
    case BuildingInsightsProperties => args => var x :- ParseBuildingInsights(args); Ok(OfBuildingInsights(x))
    case FinancedPurchaseSavingsProperties => args => var x :- ParseFinancedPurchaseSavings(args); Ok(OfFinancedPurchaseSavings(x))
    case SolarPotentialProperties => args => var x :- ParseSolarPotential(args); Ok(OfSolarPotential(x))
    case SolarPanelProperties => args => var x :- ParseSolarPanel(args); Ok(OfSolarPanel(x))
    case DateProperties => args => var x :- ParseDate(args); Ok(OfDate(x))
    case FinancialAnalysisProperties => args => var x :- ParseFinancialAnalysis(args); Ok(OfFinancialAnalysis(x))
    case RoofSegmentSummaryProperties => args => var x :- ParseSummary(args); Ok(OfRoofSegmentSummary(x))
    case SolarPanelConfigProperties => args => var x :- ParseConfig(args); Ok(OfSolarPanelConfig(x))
    case LatLngProperties => args => var x :- ParseLatLng(args); Ok(OfLatLng(x))
    case LatLngBoxProperties => args => var x :- ParseLatLngBox(args); Ok(OfLatLngBox(x))
  }

  /** Calling the building-insights class constructs exactly what `ParseBuildingInsights` does. */
  lemma CallBuildingInsights(args: Value)
    ensures var r := ParseBuildingInsights(args);
      Constructor(BuildingInsightsProperties)(args) == if r.Ok? then Ok(OfBuildingInsights(r.value)) else Err(r.error)
  {
  }

  /** Calling the data-layers class constructs exactly what `ParseDataLayers` does. */
  lemma CallDataLayers(args: Value)
    ensures var r := ParseDataLayers(args);
      Constructor(DataLayersProperties)(args) == if r.Ok? then Ok(OfDataLayers(r.value)) else Err(r.error)
  {
  }

  /** Calling the money class constructs exactly what `ParseMoney` does. */
  lemma CallMoney(args: Value)
    ensures var r := ParseMoney(args);
      Constructor(MoneyProperties)(args) == if r.Ok? then Ok(OfMoney(r.value)) else Err(r.error)
  {
  }

  /** Serialisation of a record of any class. */
  function Dump(p: SchemaProperties, excludeNone: bool): (r: Value)
    ensures r.Obj?
  {
    match p
    case OfFinancialDetails(x) => DumpFinancialDetails(x, excludeNone)
    case OfRoofSegmentSizeAndSunshineStats(x) => DumpSegmentStats(x)
    case OfSizeAndSunshineStats(x) => DumpStats(x)
    case OfDataLayers(x) => DumpDataLayers(x, excludeNone)
    case OfMoney(x) => DumpMoney(x, excludeNone)
    case OfLeasingSavings(x) => DumpLeasingSavings(x, excludeNone)
    case OfCashPurchaseSavings(x) => DumpCashPurchaseSavings(x, excludeNone)
    case OfSavingsOverTime(x) => DumpSavingsOverTime(x, excludeNone)
    case OfBuildingInsights(x) => DumpBuildingInsights(x, excludeNone)
    case OfFinancedPurchaseSavings(x) => DumpFinancedPurchaseSavings(x, excludeNone)
    case OfSolarPotential(x) => DumpSolarPotential(x, excludeNone)
    case OfSolarPanel(x) => DumpSolarPanel(x)
    case OfDate(x) => DumpDate(x)
    case OfFinancialAnalysis(x) => DumpFinancialAnalysis(x, excludeNone)
    case OfRoofSegmentSummary(x) => DumpSummary(x)
    case OfSolarPanelConfig(x) => DumpConfig(x)
    case OfLatLng(x) => DumpLatLng(x)
    case OfLatLngBox(x) => DumpLatLngBox(x)
  }

  // ---- the builders ----------------------------------------------------------------------

  /** A schema, as the builders construct it. */
  datatype SchemaModel = SchemaModel(name: string, description: string, properties: SchemaProperties)

  datatype SchemaError =
    | SchemaNotFound(name: string)      // `ValueError` of the builder: the name is not registered
    | AttributeMissing(name: string)    // `AttributeError` of the class lookup
    | Invalid(error: ValidationError)   // `ValidationError` of a construction

  /** What a builder's `_set_properties` does: the base class returns no record; each
      subclass constructs the schema's class from its fixed keyword arguments. */
  datatype SetProperties = ReturnsNothing | BuildsFrom(arguments: Value)

  /** The keyword arguments of the building-insights builder: the fixture's fields, each
      nested record given as itself, which is its serialisation. */
  const BuildingInsightsArguments: Value := DumpBuildingInsights(BuildingInsightsFixture, true)

  /** The keyword arguments of the data-layers builder. */
  const DataLayersArguments: Value := DumpDataLayers(DataLayersFixture, true)

  class SchemaBuilder {
    /** The registered schema the builder was created for. */
    var schema: SchemaName
    const setProperties: SetProperties

    constructor (setProperties: SetProperties, schema: SchemaName)
      ensures this.setProperties == setProperties && this.schema == schema
    {
      this.setProperties := setProperties;
      this.schema := schema;
    }

    /** Creating a builder succeeds exactly for a registered name. */
    static method Create(setProperties: SetProperties, schemaName: string) returns (r: Result<SchemaBuilder, SchemaError>)
      ensures r.Ok? <==> Lookup(schemaName).Some?
      ensures r.Ok? ==> fresh(r.value) && r.value.setProperties == setProperties && NameOf(r.value.schema) == schemaName
      ensures r.Err? ==> r.error == SchemaNotFound(schemaName)
    {
      var s := Lookup(schemaName);
      if s.None? {
        return Err(SchemaNotFound(schemaName));
      }
      var b := new SchemaBuilder(setProperties, s.value);
      return Ok(b);
    }

    /** The model of the builder's schema: its name and description, and the record of
        the schema's class that the builder constructs. */
    function ConstructModel(): (r: Result<SchemaModel, SchemaError>)
      reads this
      ensures schema == HttpBodySchema ==> r == Err(AttributeMissing(NameOf(HttpBodySchema) + "Properties"))
      ensures schema != HttpBodySchema && setProperties == ReturnsNothing ==>
        r == Err(Invalid(ValidationError([At(Key.properties)], ModelType)))
      ensures schema != HttpBodySchema && setProperties.BuildsFrom? ==>
        var built := Constructor(ClassOfSchema(schema).value)(setProperties.arguments);
        (built.Err? ==> r == Err(Invalid(built.error)))
        && (built.Ok? ==> r == Ok(SchemaModel(NameOf(schema), Description(schema), built.value)))
    {
      match ClassOfSchema(schema)
      case None => Err(AttributeMissing(NameOf(schema) + "Properties"))
      case Some(c) =>
        match setProperties
        case ReturnsNothing => Err(Invalid(ValidationError([At(Key.properties)], ModelType)))
        case BuildsFrom(args) =>
          match Constructor(c)(args)
          case Err(e) => Err(Invalid(e))
          case Ok(p) => Ok(SchemaModel(NameOf(schema), Description(schema), p))
    }
  }

  /** `BuildingInsightsBuilder()`: the subclass under its default name. */
  method NewBuildingInsightsBuilder() returns (b: SchemaBuilder)
    ensures fresh(b) && b.schema == BuildingInsightsSchema && b.setProperties == BuildsFrom(BuildingInsightsArguments)
  {
    b := new SchemaBuilder(BuildsFrom(BuildingInsightsArguments), BuildingInsightsSchema);
  }

  /** `DataLayersBuilder()`: the subclass under its default name. */
  method NewDataLayersBuilder() returns (b: SchemaBuilder)
    ensures fresh(b) && b.schema == DataLayersSchema && b.setProperties == BuildsFrom(DataLayersArguments)
  {
    b := new SchemaBuilder(BuildsFrom(DataLayersArguments), DataLayersSchema);
  }

  /** The building-insights builder under its own name constructs the fixture. */
  lemma BuildingInsightsModel(b: SchemaBuilder)
    requires b.schema == BuildingInsightsSchema && b.setProperties == BuildsFrom(BuildingInsightsArguments)
    ensures b.ConstructModel() == Ok(SchemaModel(
      "BuildingInsights", Description(BuildingInsightsSchema), OfBuildingInsights(BuildingInsightsFixture)))
  {
    BuildingInsightsFixtureValid();
    CallBuildingInsights(BuildingInsightsArguments);
  }

  /** The data-layers builder under its own name constructs the fixture. */
  lemma DataLayersModel(b: SchemaBuilder)
    requires b.schema == DataLayersSchema && b.setProperties == BuildsFrom(DataLayersArguments)
    ensures b.ConstructModel() == Ok(SchemaModel("DataLayers", Description(DataLayersSchema), OfDataLayers(DataLayersFixture)))
  {
    DataLayersFixtureConstructs();
    CallDataLayers(DataLayersArguments);
  }

  /** A building-insights builder created for another schema constructs that schema's
      class from the building's arguments: for `Money`, the required `units` is missing. */
  lemma MismatchedBuilderFails(b: SchemaBuilder)
    requires b.schema == MoneySchema && b.setProperties == BuildsFrom(BuildingInsightsArguments)
    ensures b.ConstructModel() == Err(Invalid(ValidationError([At(Key.units)], Missing)))
  {
    MoneyRefusesBuildingInsights(BuildingInsightsFixture);
    CallMoney(BuildingInsightsArguments);
  }

  /** The serialisation of any building has no `units`, which `Money` requires, and no `nanos`,
      which comes before it. */
  lemma MoneyRefusesBuildingInsights(x: BuildingInsights)
    ensures ParseMoney(DumpBuildingInsights(x, true)) == Err(ValidationError([At(Key.units)], Missing))
  {
    DumpBuildingInsightsKeys(x, true);
    MoneyRequiresUnits(DumpBuildingInsights(x, true).fields);
  }
}
