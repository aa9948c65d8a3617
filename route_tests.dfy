/** The expectations of tests/test_core_routes.py: the two routes called with the
    test's arguments answer with the test's JSON trees. Each tree is written with the
    keys of every object in the order the serialiser inserts them; key order is not
    significant, as `json.loads` makes the comparison one of dictionaries. */
module RouteTests {
  import opened Wrappers
  import opened Json
  import opened Financial
  import opened Solar
  import opened Layers
  import opened Insights
  import opened Fixtures
  import opened Schema
  import opened Endpoints

  /** The expected `wholeRoofStats`: the whole roof. */
  const ExpectedWholeRoofStats: Value := Obj(map[
      Key.areaMeters2 := Num(2399.3958),
      Key.sunshineQuantiles := Arr([Num(352.27243), Num(1402.5898), Num(1480.4432), Num(1534.5151), Num(1561.8411), Num(1603.2942), Num(1628.6796), Num(1647.9292), Num(1671.7146), Num(1767.0829), Num(1874.7046)]),
      Key.groundAreaMeters2 := Num(2279.71)])

  /** The expected `roofSegmentStats`: the two roof segments. */
  const ExpectedRoofSegmentStats: Value := Arr([
      Obj(map[
        Key.pitchDegrees := Num(11.350553),
        Key.stats := Obj(map[
          Key.areaMeters2 := Num(452.00052),
          Key.sunshineQuantiles := Arr([Num(409.601), Num(1482.1255), Num(1553.5117), Num(1582.7875), Num(1602.3456), Num(1613.7804)]),
          Key.groundAreaMeters2 := Num(443.16)]),
        Key.center := Obj(map[
          Key.longitude := Num(-122.13936369999999),
          Key.latitude := Num(37.444972799999995)]),
        Key.azimuthDegrees := Num(269.6291),
        Key.planeHeightAtCenterMeters := Num(10.7835045),
        Key.boundingBox := Obj(map[
          Key.ne := Obj(map[
            Key.longitude := Num(-122.13929279999999),
            Key.latitude := Num(37.4451909)]),
          Key.sw := Obj(map[
            Key.longitude := Num(-122.1394224),
            Key.latitude := Num(37.444732099999996)])])]),
      Obj(map[
        Key.pitchDegrees := Num(12.273684),
        Key.stats := Obj(map[
          Key.areaMeters2 := Num(309.87268),
          Key.sunshineQuantiles := Arr([Num(650.5504), Num(1701.709), Num(1745.0032), Num(1768.4081), Num(1779.1625), Num(1787.4258), Num(1794.9333), Num(1801.3938), Num(1806.7461), Num(1814.0724), Num(1845.8717)]),
          Key.groundAreaMeters2 := Num(302.79)]),
        Key.center := Obj(map[
          Key.longitude := Num(-122.13898890000002),
          Key.latitude := Num(37.4449286)]),
        Key.azimuthDegrees := Num(179.12555),
        Key.planeHeightAtCenterMeters := Num(10.67585),
        Key.boundingBox := Obj(map[
          Key.ne := Obj(map[
            Key.longitude := Num(-122.1387809),
            Key.latitude := Num(37.444981999999996)]),
          Key.sw := Obj(map[
            Key.longitude := Num(-122.1392095),
            Key.latitude := Num(37.4448617)])])])])

  /** The expected `solarPanelConfigs`: the two layouts. */
  const ExpectedSolarPanelConfigs: Value := Arr([
      Obj(map[
        Key.roofSegmentSummaries := Arr([
          Obj(map[
            Key.yearlyEnergyDcKwh := Num(2922.532),
            Key.segmentIndex := Num(1.0),
            Key.panelsCount := Num(4.0),
            Key.azimuthDegrees := Num(179.12555),
            Key.pitchDegrees := Num(12.273684)])]),
        Key.panelsCount := Num(4.0),
        Key.yearlyEnergyDcKwh := Num(2922.5322)]),
      Obj(map[
        Key.roofSegmentSummaries := Arr([
          Obj(map[
            Key.yearlyEnergyDcKwh := Num(3651.4065),
            Key.segmentIndex := Num(1.0),
            Key.panelsCount := Num(5.0),
            Key.azimuthDegrees := Num(179.12555),
            Key.pitchDegrees := Num(12.273684)])]),
        Key.panelsCount := Num(5.0),
        Key.yearlyEnergyDcKwh := Num(3651.4067)])])

  /** The expected `financialAnalyses`: the two analyses. */
  const ExpectedFinancialAnalyses: Value := Arr([
      Obj(map[
        Key.panelConfigIndex := Num(-1.0),
        Key.monthlyBill := Obj(map[
          Key.units := Str("20"),
          Key.currencyCode := Str("USD")]),
        Key.averageKwhPerMonth := Num(-0.083333336)]),
      Obj(map[
        Key.panelConfigIndex := Num(-1.0),
        Key.monthlyBill := Obj(map[
          Key.units := Str("25"),
          Key.currencyCode := Str("USD")]),
        Key.averageKwhPerMonth := Num(-0.083333336)])])

  /** The expected `buildingStats`: the building. */
  const ExpectedBuildingStats: Value := Obj(map[
      Key.areaMeters2 := Num(2533.6663),
      Key.sunshineQuantiles := Arr([Num(348.80408), Num(1382.8478), Num(1467.4017), Num(1526.7751), Num(1557.0416), Num(1597.7374), Num(1626.1417), Num(1646.3545), Num(1669.879), Num(1764.1133), Num(1874.7046)]),
      Key.groundAreaMeters2 := Num(2356.03)])

  /** The expected `solarPanels`: the two panels. */
  const ExpectedSolarPanels: Value := Arr([
      Obj(map[
        Key.orientation := Str("LANDSCAPE"),
        Key.yearlyEnergyDcKwh := Num(731.7764),
        Key.segmentIndex := Num(1.0),
        Key.center := Obj(map[
          Key.longitude := Num(-122.1390722),
          Key.latitude := Num(37.4449622)])]),
      Obj(map[
        Key.orientation := Str("LANDSCAPE"),
        Key.yearlyEnergyDcKwh := Num(731.2524),
        Key.segmentIndex := Num(1.0),
        Key.center := Obj(map[
          Key.longitude := Num(-122.13909340000001),
          Key.latitude := Num(37.4449621)])])])

  const ExpectedSolarPotential: Value := Obj(map[
      Key.maxSunshineHoursPerYear := Num(1811.3477),
      Key.maxArrayPanelsCount := Num(987.0),
      Key.panelHeightMeters := Num(1.879),
      Key.maxArrayAreaMeters2 := Num(1938.0287),
      Key.panelWidthMeters := Num(1.045),
      Key.wholeRoofStats := ExpectedWholeRoofStats,
      Key.solarPanelConfigs := ExpectedSolarPanelConfigs,
      Key.financialAnalyses := ExpectedFinancialAnalyses,
      Key.panelLifetimeYears := Num(20.0),
      Key.carbonOffsetFactorKgPerMwh := Num(428.9201),
      Key.roofSegmentStats := ExpectedRoofSegmentStats,
      Key.panelCapacityWatts := Num(400.0),
      Key.buildingStats := ExpectedBuildingStats,
      Key.solarPanels := ExpectedSolarPanels])

  /** The tree `test_get_building_insights_default` expects. */
  const ExpectedBuildingInsights: Value := Obj(map[
      Key.administrativeArea := Str("CA"),
      Key.center := Obj(map[
        Key.longitude := Num(-122.13914659999998),
        Key.latitude := Num(37.4449739)]),
      Key.name := Str("buildings/ChIJh0CMPQW7j4ARLrRiVvmg6Vs"),
      Key.solarPotential := ExpectedSolarPotential,
      Key.regionCode := Str("US"),
      Key.postalCode := Str("94303"),
      Key.imageryDate := Obj(map[
        Key.month := Num(8.0),
        Key.day := Num(14.0),
        Key.year := Num(2022.0)]),
      Key.statisticalArea := Str("06085511100"),
      Key.boundingBox := Obj(map[
        Key.ne := Obj(map[
          Key.longitude := Num(-122.13872160000001),
          Key.latitude := Num(37.4452242)]),
        Key.sw := Obj(map[
          Key.longitude := Num(-122.1394224),
          Key.latitude := Num(37.4447234)])]),
      Key.imageryProcessedDate := Obj(map[
        Key.month := Num(10.0),
        Key.day := Num(15.0),
        Key.year := Num(2024.0)]),
      Key.imageryQuality := Str("HIGH")])

  lemma WholeRoofStatsAsExpected()
    ensures DumpStats(FixturePotential.wholeRoofStats) == ExpectedWholeRoofStats
  {
    var r := DumpStats(FixturePotential.wholeRoofStats);
    assert r.fields[Key.sunshineQuantiles].items == ExpectedWholeRoofStats.fields[Key.sunshineQuantiles].items;
  }

  lemma RoofSegmentStatsAsExpected()
    ensures DumpSegmentStatsList(FixturePotential.roofSegmentStats) == ExpectedRoofSegmentStats
  {
    var r := DumpSegmentStatsList(FixturePotential.roofSegmentStats);
    assert r.items[0].fields[Key.stats].fields[Key.sunshineQuantiles].items == ExpectedRoofSegmentStats.items[0].fields[Key.stats].fields[Key.sunshineQuantiles].items;
    assert r.items[1].fields[Key.stats].fields[Key.sunshineQuantiles].items == ExpectedRoofSegmentStats.items[1].fields[Key.stats].fields[Key.sunshineQuantiles].items;
    assert r.items == ExpectedRoofSegmentStats.items;
  }

  lemma SolarPanelConfigsAsExpected()
    ensures DumpConfigs(FixturePotential.solarPanelConfigs) == ExpectedSolarPanelConfigs
  {
    var r := DumpConfigs(FixturePotential.solarPanelConfigs);
    assert r.items[0].fields[Key.roofSegmentSummaries].items == ExpectedSolarPanelConfigs.items[0].fields[Key.roofSegmentSummaries].items;
    assert r.items[1].fields[Key.roofSegmentSummaries].items == ExpectedSolarPanelConfigs.items[1].fields[Key.roofSegmentSummaries].items;
    assert r.items == ExpectedSolarPanelConfigs.items;
  }

  lemma FinancialAnalysesAsExpected()
    ensures DumpAnalyses(FixturePotential.financialAnalyses, true) == ExpectedFinancialAnalyses
  {
    var r := DumpAnalyses(FixturePotential.financialAnalyses, true);
    assert r.items == ExpectedFinancialAnalyses.items;
  }

  lemma BuildingStatsAsExpected()
    ensures DumpStats(FixturePotential.buildingStats.value) == ExpectedBuildingStats
  {
    var r := DumpStats(FixturePotential.buildingStats.value);
    assert r.fields[Key.sunshineQuantiles].items == ExpectedBuildingStats.fields[Key.sunshineQuantiles].items;
  }

  lemma SolarPanelsAsExpected()
    ensures DumpSolarPanels(FixturePotential.solarPanels.value) == ExpectedSolarPanels
  {
    var r := DumpSolarPanels(FixturePotential.solarPanels.value);
    assert r.items == ExpectedSolarPanels.items;
  }

  lemma SolarPotentialAsExpected()
    ensures DumpSolarPotential(FixturePotential, true) == ExpectedSolarPotential
  {
    WholeRoofStatsAsExpected();
    RoofSegmentStatsAsExpected();
    SolarPanelConfigsAsExpected();
    FinancialAnalysesAsExpected();
    BuildingStatsAsExpected();
    SolarPanelsAsExpected();
  }

  /** The whole serialised building equals the expected tree. */
  lemma BuildingInsightsAsExpected()
    ensures DumpBuildingInsights(BuildingInsightsFixture, true) == ExpectedBuildingInsights
  {
    SolarPotentialAsExpected();
  }

  /** `test_get_building_insights_default`: the route called with `{"lat": 0, "lon": 0}`
      and no quality answers with the expected tree. */
  method TestGetBuildingInsightsDefault() returns (r: Result<Value, SchemaError>)
    ensures r == Ok(ExpectedBuildingInsights)
  {
    r := GetBuildingInsights(Obj(map[Key.Other("lat") := Num(0.0), Key.Other("lon") := Num(0.0)]), Null);
    BuildingInsightsAsExpected();
  }

  /** The expected `hourlyShadeUrls`: one URL per month. */
  const ExpectedHourlyShadeUrls: Value := Arr([
    Str(UrlPrefix + "YWRhOGIwNDc5OTViNDI4ZWRhYWMzMGJkZDU5ZjYzZmItNmIzODc3ZWIzNmJiYTAzNjI4M2RlZDdkYzFkZTNjOTQ6SE9VUkxZX1NIQURFOkxPVw"),
    Str(UrlPrefix + "MTE5MDg1Y2NlYThjMTJjMDIzOTc5ZTAxYzJiNTY1NWMtNjU3MDE2MWY5ZmZhMGQ5NzU3ZTJlNmE1NTBjNzE3MzE6SE9VUkxZX1NIQURFOkxPVw"),
    Str(UrlPrefix + "M2I1MWY2YmY3ZjZjNzlhNTIwMjVmZDYwNTAxY2Q0ZGEtZDI5OWM5YzM1YWI4Y2U4ODE4YjFiOWJjNTNiNjQyNjA6SE9VUkxZX1NIQURFOkxPVw"),
    Str(UrlPrefix + "NjcwMzQ2OGQ1OWFiMGFlZTc0MGQzMTQ1MDBhNmJiYWMtNTRhZDYwNmFlNzJjYzMzMTQxMmY1NDg3MDhkYzc2ZTA6SE9VUkxZX1NIQURFOkxPVw"),
    Str(UrlPrefix + "ZTlkYTc3YzAzYWE1ZDBjMTE2OWI2YmZlZjEzODg0NTYtMTY5MmY2NmJhZjJlYzJlOTNiYmEzNjIxZjUxZDY3NGM6SE9VUkxZX1NIQURFOkxPVw"),
    Str(UrlPrefix + "NjhlOWNlYjExMTY2YjVhODgwZTE4MWY4NWVjNGVhNjQtNTczODExYWMzM2M4NGRkZTE1OWE0ZDUxYWVhYTA3ZTU6SE9VUkxZX1NIQURFOkxPVw"),
    Str(UrlPrefix + "YzM1ZGIxNTIwNGI5ZGNiM2M5YjIwNTQ3ODhiMjQ4YzMtZGViZGNlNThhZDI3ODIyYzAwMTIyYzdhOTkxNzRmYWM6SE9VUkxZX1NIQURFOkxPVw"),
    Str(UrlPrefix + "MzE2OGRlMGRhNWZhMzcyMzI0NmE0MjVkM2JjZWU5M2ItZGQxNGZjOGFhNTgzYWE0ZDE2ZDU1ZGZhNTE2Yzg3YmM6SE9VUkxZX1NIQURFOkxPVw"),
    Str(UrlPrefix + "ZDVkOThjMjFiZjMzNjRhYTM3YTk3OGUwNWE2MjhlZDctYjk3YTY2MGQ1ZGFjNzA3MTQ4ZWRiZTc1NjQ0YWQ3MjE6SE9VUkxZX1NIQURFOkxPVw"),
    Str(UrlPrefix + "ODVkMDA5Mzg0OGQ4ODNhYjAyN2I3ZTEwYjk4MjI1ODQtMjdiNGNmZjk2MjQ4MDc4MzRkOWUzZTU5MzY1OThkOTM6SE9VUkxZX1NIQURFOkxPVw"),
    Str(UrlPrefix + "MTA4YTQ1ZjEyZTMzZjU4Yzc5NzA5MTNjMzA0MzdhODItMmZiNmYxMjM5OWY4ZjY3OGUxMzg5MTY1Y2VkNmNlMDA6SE9VUkxZX1NIQURFOkxPVw"),
    Str(UrlPrefix + "MDk3ZThlZjU3NjM4ZTFmMTIzZjNjYTFmNTY5ODViOGQtZDJhN2YzM2JjNzQxODE5YTgyZDk4ZTI0MDcxY2I0MDg6SE9VUkxZX1NIQURFOkxPVw")])

  /** The tree `test_get_data_layers_default` expects; every URL is written as the
      common prefix `UrlPrefix` followed by the identifier of the raster. */
  const ExpectedDataLayers: Value := Obj(map[
      Key.annualFluxUrl := Str(UrlPrefix + "NWEyOGEwZjMwYjMxMzkyNmQzOTJkYmZjMjc4ZmJhYWYtYjVlMzc2ZjI0YmExYWZhYWQyNmVhNmVkNzFmODJkNjA6QU5OVUFMX0ZMVVg6TE9X"),
      Key.maskUrl := Str(UrlPrefix + "NGQ5MTZmMTdhYTM3YTk3NTY1ZjMwZDcwZTExMWU1OWEtZDYxOTI0OTI1YzZlYjU5NDI5MjczY2QyMzQ3YWNlYTI6TUFTSzpMT1c"),
      Key.imageryQuality := Str("HIGH"),
      Key.monthlyFluxUrl := Str(UrlPrefix + "MjBlMTk1NTkxZGYwZTIxNjZjMWFjOWEzY2ZjZmVhMWEtYTRiZDIxOWUzMmQxYTUyNGE1NGMyYWYyZThlNTA4NTA6TU9OVEhMWV9GTFVYOkxPVw"),
      Key.imageryDate := Obj(map[
        Key.month := Num(4.0),
        Key.day := Num(6.0),
        Key.year := Num(2022.0)]),
      Key.rgbUrl := Str(UrlPrefix + "MzQwZjVlZDBhNDYxZWNhYjU2Y2NlOWQwMmVjNjVkMzEtZjBhMzgwMzA0YTNiMzZiMjNmZDQxOWI3OTA2YWVhNzM6UkdCOkxPVw"),
      Key.dsmUrl := Str(UrlPrefix + "ODU4ZmQ5NGUyNDA5ZDIxNzk1MjhkNzE0MmQ0Njk5M2QtOGVmZjdhMjQ4MzBiY2MxZDc1NDIxMzQ5OTAyZmUyNWY6RFNNOkxPVw"),
      Key.hourlyShadeUrls := ExpectedHourlyShadeUrls,
      Key.imageryProcessedDate := Obj(map[
        Key.month := Num(8.0),
        Key.day := Num(4.0),
        Key.year := Num(2023.0)])])

  /** The URLs of January to June equal the expected ones. */
  lemma FirstHalfShadeUrlsAsExpected(i: int)
    requires 0 <= i < 6
    ensures Str(HourlyShadeUrl(i)) == ExpectedHourlyShadeUrls.items[i]
  {
    if i == 0 {
    } else if i == 1 {
    } else if i == 2 {
    } else if i == 3 {
    } else if i == 4 {
    } else if i == 5 {
    }
  }

  /** The URLs of July to December equal the expected ones. */
  lemma SecondHalfShadeUrlsAsExpected(i: int)
    requires 6 <= i < 12
    ensures Str(HourlyShadeUrl(i)) == ExpectedHourlyShadeUrls.items[i]
  {
    if i == 6 {
    } else if i == 7 {
    } else if i == 8 {
    } else if i == 9 {
    } else if i == 10 {
    } else if i == 11 {
    }
  }

  /** The serialised hourly-shade URLs equal the expected list. */
  lemma HourlyShadeUrlsAsExpected()
    ensures Strs(seq(12, HourlyShadeUrl)) == ExpectedHourlyShadeUrls
  {
    var r := Strs(seq(12, HourlyShadeUrl));
    forall i | 0 <= i < 12
      ensures r.items[i] == ExpectedHourlyShadeUrls.items[i]
    {
      if i < 6 {
        FirstHalfShadeUrlsAsExpected(i);
      } else {
        SecondHalfShadeUrlsAsExpected(i);
      }
    }
    assert r.items == ExpectedHourlyShadeUrls.items;
  }

  /** The serialised data layers equal the expected tree. */
  lemma DataLayersAsExpected()
    ensures DumpDataLayers(DataLayersFixture, true) == ExpectedDataLayers
  {
    HourlyShadeUrlsAsExpected();
  }

  /** `test_get_data_layers_default`: the route called with `{"lat": 0, "lon": 0}`, a radius
      of 1000 and nothing else answers with the expected tree. */
  method TestGetDataLayersDefault() returns (r: Result<Value, SchemaError>)
    ensures r == Ok(ExpectedDataLayers)
  {
    r := GetDataLayers(Obj(map[Key.Other("lat") := Num(0.0), Key.Other("lon") := Num(0.0)]), Num(1000.0),
      Null, Null, Null, Null);
    DataLayersAsExpected();
  }
}
