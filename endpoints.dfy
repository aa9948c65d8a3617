/** The two entry points of solar_api_mock/core/main.py. Each creates its builder, has it
    construct the schema's model, and answers with the model's record serialised with
    every unset field left out. The request arguments are accepted as they are passed
    (no type is enforced on them) and do not influence the answer. */
module Endpoints {
  import opened Wrappers
  import opened Json
  import opened Layers
  import opened Insights
  import opened Fixtures
  import opened Schema

  /** A building-insights record is serialised as its class serialises it. */
  lemma DumpsBuildingInsights(x: BuildingInsights)
    ensures Dump(OfBuildingInsights(x), true) == DumpBuildingInsights(x, true)
  {
  }

  /** A data-layers record is serialised as its class serialises it. */
  lemma DumpsDataLayers(x: DataLayers)
    ensures Dump(OfDataLayers(x), true) == DumpDataLayers(x, true)
  {
  }

  /** `get_building_insights`: whatever the location and quality, the building fixture. */
  method GetBuildingInsights(latLon: Value, requiredQuality: Value) returns (r: Result<Value, SchemaError>)
    ensures r == Ok(DumpBuildingInsights(BuildingInsightsFixture, true))
  {
    var builder := NewBuildingInsightsBuilder();
    BuildingInsightsModel(builder);
    var model := builder.ConstructModel();
    DumpsBuildingInsights(BuildingInsightsFixture);
    r := Ok(Dump(model.value.properties, true));
  }

  /** `get_data_layers`: whatever the location, radius, view, quality and pixel size, the
      data-layers fixture. */
  method GetDataLayers(location: Value, radiusMeter: Value, view: Value, requiredQuality: Value,
                       pixelSizeNumbers: Value, exactQualityRequired: Value)
    returns (r: Result<Value, SchemaError>)
    ensures r == Ok(DumpDataLayers(DataLayersFixture, true))
  {
    var builder := NewDataLayersBuilder();
    DataLayersModel(builder);
    var model := builder.ConstructModel();
    DumpsDataLayers(DataLayersFixture);
    r := Ok(Dump(model.value.properties, true));
  }
}
