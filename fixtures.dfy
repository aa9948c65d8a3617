/** The two records the schema builders of solar_api_mock/core/schema.py
    construct: the building insights of one building in Palo Alto and the data
    layers of its region. Each is written here as the record that construction
    produces; the keyword arguments it is built from are the serialisations of
    its nested records, which construction reads back unchanged. */
module Fixtures {
  import opened Wrappers
  import opened Json
  import opened Common
  import opened Financial
  import opened Solar
  import opened Insights
  import opened Layers

  // ---- building insights ----------------------------------------------------------

  const FirstSegmentBox := LatLngBox(
    ne := LatLng(longitude := -122.13929279999999, latitude := 37.4451909),
    sw := LatLng(longitude := -122.1394224, latitude := 37.444732099999996))

  /** The keyword arguments of the first segment's bounding box: besides the two
      corners they pass an imagery date and quality that the box does not declare. */
  const FirstSegmentBoxArgs := Obj(map[
    Key.imageryProcessedDate := DateArgs(2024, 10, 15),
    Key.imageryQuality := Str("HIGH"),
    Key.sw := LatLngArgs(37.444732099999996, -122.1394224),
    Key.ne := LatLngArgs(37.4451909, -122.13929279999999)])

  const FirstSegment := RoofSegmentSizeAndSunshineStats(
    pitchDegrees := 11.350553,
    stats := SizeAndSunshineStats(
      areaMeters2 := 452.00052,
      sunshineQuantiles := [409.601, 1482.1255, 1553.5117, 1582.7875, 1602.3456, 1613.7804],
      groundAreaMeters2 := 443.16),
    center := LatLng(longitude := -122.13936369999999, latitude := 37.444972799999995),
    azimuthDegrees := 269.6291,
    planeHeightAtCenterMeters := 10.7835045,
    boundingBox := FirstSegmentBox)

  const SecondSegment := RoofSegmentSizeAndSunshineStats(
    pitchDegrees := 12.273684,
    stats := SizeAndSunshineStats(
      areaMeters2 := 309.87268,
      sunshineQuantiles := [650.5504, 1701.709, 1745.0032, 1768.4081, 1779.1625, 1787.4258,
                            1794.9333, 1801.3938, 1806.7461, 1814.0724, 1845.8717],
      groundAreaMeters2 := 302.79),
    center := LatLng(longitude := -122.13898890000002, latitude := 37.4449286),
    azimuthDegrees := 179.12555,
    planeHeightAtCenterMeters := 10.67585,
    boundingBox := LatLngBox(
      ne := LatLng(longitude := -122.1387809, latitude := 37.444981999999996),
      sw := LatLng(longitude := -122.1392095, latitude := 37.4448617)))

  /** A layout of `count` panels, all on the second roof segment. */
  function SecondSegmentLayout(count: int, energy: real, segmentEnergy: real): SolarPanelConfig {
    SolarPanelConfig(
      roofSegmentSummaries := [RoofSegmentSummary(
        yearlyEnergyDcKwh := segmentEnergy,
        segmentIndex := 1,
        panelsCount := count,
        azimuthDegrees := 179.12555,
        pitchDegrees := 12.273684)],
      panelsCount := count,
      yearlyEnergyDcKwh := energy)
  }

  /** An analysis of a monthly bill of `units` US dollars, with no layout. */
  function BillWithoutLayout(units: string): FinancialAnalysis {
    FinancialAnalysis(
      defaultBill := None,
      panelConfigIndex := -1,
      financialDetails := None,
      cashPurchaseSavings := None,
      monthlyBill := Money(nanos := None, units := units, currencyCode := "USD"),
      averageKwhPerMonth := -0.083333336,
      leasingSavings := None,
      financedPurchaseSavings := None)
  }

  const FixturePotential := SolarPotential(
    maxSunshineHoursPerYear := 1811.3477,
    maxArrayPanelsCount := 987,
    panelHeightMeters := 1.879,
    maxArrayAreaMeters2 := 1938.0287,
    panelWidthMeters := 1.045,
    wholeRoofStats := SizeAndSunshineStats(
      areaMeters2 := 2399.3958,
      sunshineQuantiles := [352.27243, 1402.5898, 1480.4432, 1534.5151, 1561.8411, 1603.2942,
                            1628.6796, 1647.9292, 1671.7146, 1767.0829, 1874.7046],
      groundAreaMeters2 := 2279.71),
    solarPanelConfigs := [SecondSegmentLayout(4, 2922.5322, 2922.532), SecondSegmentLayout(5, 3651.4067, 3651.4065)],
    financialAnalyses := [BillWithoutLayout("20"), BillWithoutLayout("25")],
    panelLifetimeYears := 20,
    buildingStats := Some(SizeAndSunshineStats(
      areaMeters2 := 2533.6663,
      sunshineQuantiles := [348.80408, 1382.8478, 1467.4017, 1526.7751, 1557.0416, 1597.7374,
                            1626.1417, 1646.3545, 1669.879, 1764.1133, 1874.7046],
      groundAreaMeters2 := 2356.03)),
    carbonOffsetFactorKgPerMwh := 428.9201,
    roofSegmentStats := [FirstSegment, SecondSegment],
    panelCapacityWatts := 400.0,
    solarPanels := Some([
      SolarPanel(
        orientation := Landscape,
        yearlyEnergyDcKwh := 731.7764,
        segmentIndex := 1,
        center := LatLng(longitude := -122.1390722, latitude := 37.4449622)),
      SolarPanel(
        orientation := Landscape,
        yearlyEnergyDcKwh := 731.2524,
        segmentIndex := 1,
        center := LatLng(longitude := -122.13909340000001, latitude := 37.4449621))]))

  const BuildingInsightsFixture := BuildingInsights(
    administrativeArea := "CA",
    imageryProcessedDate := Some(Date(month := 10, day := 15, year := 2024)),
    center := LatLng(longitude := -122.13914659999998, latitude := 37.4449739),
    imageryQuality := Some(High),
    name := "buildings/ChIJh0CMPQW7j4ARLrRiVvmg6Vs",
    solarPotential := FixturePotential,
    regionCode := "US",
    postalCode := "94303",
    imageryDate := Date(month := 8, day := 14, year := 2022),
    statisticalArea := "06085511100",
    boundingBox := LatLngBox(
      ne := LatLng(longitude := -122.13872160000001, latitude := 37.4452242),
      sw := LatLng(longitude := -122.1394224, latitude := 37.4447234)))

  /** The undeclared imagery arguments of the first segment's box are dropped:
      the box is built from its corners alone and serialises to them alone. */
  lemma FirstSegmentBoxDropsExtras()
    ensures ParseLatLngBox(FirstSegmentBoxArgs) == Ok(FirstSegment.boundingBox)
    ensures DumpLatLngBox(FirstSegment.boundingBox).fields.Keys == {Key.ne, Key.sw}
  {
    var corners := map[
      Key.sw := LatLngArgs(37.444732099999996, -122.1394224),
      Key.ne := LatLngArgs(37.4451909, -122.13929279999999)];
    var extra := map[Key.imageryProcessedDate := DateArgs(2024, 10, 15), Key.imageryQuality := Str("HIGH")];
    assert FirstSegmentBoxArgs.fields == corners + extra;
    LatLngBoxIgnoresUndeclared(corners, extra);
    DumpLatLngBoxKeys(FirstSegment.boundingBox);
  }

  /** Every declared bound holds, so construction of the whole record succeeds. */
  lemma BuildingInsightsFixtureValid()
    ensures BuildingInsightsFixture.Valid()
    ensures ParseBuildingInsights(DumpBuildingInsights(BuildingInsightsFixture, true)) == Ok(BuildingInsightsFixture)
  {
    BuildingInsightsRoundTrip(BuildingInsightsFixture);
  }

  /** The resource name of the fixture has the documented format. */
  lemma FixtureNameIsResourceName()
    ensures IsResourceName(BuildingInsightsFixture.name)
  {
  }

  /** The two layouts are in increasing order of panel count, both hold at least
      four panels, and each total is the sum over its one segment. */
  lemma FixtureLayoutsKeepDocumentedRules()
    ensures FixturePotential.ConfigsIncreasing()
    ensures FixturePotential.ConfigsHoldFourPanels()
    ensures FixturePotential.ConfigCountsMatch()
  {
  }

  /** Every segment index of a layout or a panel points at one of the two roof segments. */
  lemma FixtureSegmentIndexesInRange()
    ensures FixturePotential.SegmentIndexesInRange()
  {
  }

  /** Both analyses name no layout and carry no sub-analyses, and the bills of $20 and $25 increase. */
  lemma FixtureAnalysesKeepDocumentedRules()
    ensures FixturePotential.AnalysesReferToConfigs()
    ensures BillsIncreasing(FixturePotential.financialAnalyses)
  {
    assert "20" == ['2', '0'] && "25" == ['2', '5'];
  }

  /** The whole-roof quantiles are listed from the smallest to the largest. */
  lemma FixtureQuantilesOrdered()
    ensures FixturePotential.wholeRoofStats.QuantilesOrdered()
  {
  }

  /** The documented relations the fixture breaks: its layouts of 4 and 5 panels
      cannot take the first N of only 2 listed panels, and no analysis is the default bill. */
  lemma BuildingInsightsFixtureBreaksDocumentedRules()
    ensures !FixturePotential.ConfigsUseListedPanels()
    ensures DefaultBillCount(FixturePotential.financialAnalyses) == 0
    ensures !ExactlyOneDefaultBill(FixturePotential.financialAnalyses)
  {
    assert FixturePotential.solarPanelConfigs[0].panelsCount == 4;
  }

  // ---- data layers ------------------------------------------------------------------

  const UrlPrefix := "https://solar.googleapis.com/v1/geoTiff:get?id="

  /** The URL of the hourly-shade raster of month `i + 1`. */
  function HourlyShadeUrl(i: int): string
    requires 0 <= i < 12
  {
    UrlPrefix + match i
      case 0 => "YWRhOGIwNDc5OTViNDI4ZWRhYWMzMGJkZDU5ZjYzZmItNmIzODc3ZWIzNmJiYTAzNjI4M2RlZDdkYzFkZTNjOTQ6SE9VUkxZX1NIQURFOkxPVw"
      case 1 => "MTE5MDg1Y2NlYThjMTJjMDIzOTc5ZTAxYzJiNTY1NWMtNjU3MDE2MWY5ZmZhMGQ5NzU3ZTJlNmE1NTBjNzE3MzE6SE9VUkxZX1NIQURFOkxPVw"
      case 2 => "M2I1MWY2YmY3ZjZjNzlhNTIwMjVmZDYwNTAxY2Q0ZGEtZDI5OWM5YzM1YWI4Y2U4ODE4YjFiOWJjNTNiNjQyNjA6SE9VUkxZX1NIQURFOkxPVw"
      case 3 => "NjcwMzQ2OGQ1OWFiMGFlZTc0MGQzMTQ1MDBhNmJiYWMtNTRhZDYwNmFlNzJjYzMzMTQxMmY1NDg3MDhkYzc2ZTA6SE9VUkxZX1NIQURFOkxPVw"
      case 4 => "ZTlkYTc3YzAzYWE1ZDBjMTE2OWI2YmZlZjEzODg0NTYtMTY5MmY2NmJhZjJlYzJlOTNiYmEzNjIxZjUxZDY3NGM6SE9VUkxZX1NIQURFOkxPVw"
      case 5 => "NjhlOWNlYjExMTY2YjVhODgwZTE4MWY4NWVjNGVhNjQtNTczODExYWMzM2M4NGRkZTE1OWE0ZDUxYWVhYTA3ZTU6SE9VUkxZX1NIQURFOkxPVw"
      case 6 => "YzM1ZGIxNTIwNGI5ZGNiM2M5YjIwNTQ3ODhiMjQ4YzMtZGViZGNlNThhZDI3ODIyYzAwMTIyYzdhOTkxNzRmYWM6SE9VUkxZX1NIQURFOkxPVw"
      case 7 => "MzE2OGRlMGRhNWZhMzcyMzI0NmE0MjVkM2JjZWU5M2ItZGQxNGZjOGFhNTgzYWE0ZDE2ZDU1ZGZhNTE2Yzg3YmM6SE9VUkxZX1NIQURFOkxPVw"
      case 8 => "ZDVkOThjMjFiZjMzNjRhYTM3YTk3OGUwNWE2MjhlZDctYjk3YTY2MGQ1ZGFjNzA3MTQ4ZWRiZTc1NjQ0YWQ3MjE6SE9VUkxZX1NIQURFOkxPVw"
      case 9 => "ODVkMDA5Mzg0OGQ4ODNhYjAyN2I3ZTEwYjk4MjI1ODQtMjdiNGNmZjk2MjQ4MDc4MzRkOWUzZTU5MzY1OThkOTM6SE9VUkxZX1NIQURFOkxPVw"
      case 10 => "MTA4YTQ1ZjEyZTMzZjU4Yzc5NzA5MTNjMzA0MzdhODItMmZiNmYxMjM5OWY4ZjY3OGUxMzg5MTY1Y2VkNmNlMDA6SE9VUkxZX1NIQURFOkxPVw"
      case _ => "MDk3ZThlZjU3NjM4ZTFmMTIzZjNjYTFmNTY5ODViOGQtZDJhN2YzM2JjNzQxODE5YTgyZDk4ZTI0MDcxY2I0MDg6SE9VUkxZX1NIQURFOkxPVw"
  }

  const DataLayersFixture := DataLayers(
    annualFluxUrl := UrlPrefix + "NWEyOGEwZjMwYjMxMzkyNmQzOTJkYmZjMjc4ZmJhYWYtYjVlMzc2ZjI0YmExYWZhYWQyNmVhNmVkNzFmODJkNjA6QU5OVUFMX0ZMVVg6TE9X",
    maskUrl := UrlPrefix + "NGQ5MTZmMTdhYTM3YTk3NTY1ZjMwZDcwZTExMWU1OWEtZDYxOTI0OTI1YzZlYjU5NDI5MjczY2QyMzQ3YWNlYTI6TUFTSzpMT1c",
    imageryQuality := High,
    monthlyFluxUrl := UrlPrefix + "MjBlMTk1NTkxZGYwZTIxNjZjMWFjOWEzY2ZjZmVhMWEtYTRiZDIxOWUzMmQxYTUyNGE1NGMyYWYyZThlNTA4NTA6TU9OVEhMWV9GTFVYOkxPVw",
    imageryDate := Date(month := 4, day := 6, year := 2022),
    rgbUrl := UrlPrefix + "MzQwZjVlZDBhNDYxZWNhYjU2Y2NlOWQwMmVjNjVkMzEtZjBhMzgwMzA0YTNiMzZiMjNmZDQxOWI3OTA2YWVhNzM6UkdCOkxPVw",
    dsmUrl := UrlPrefix + "ODU4ZmQ5NGUyNDA5ZDIxNzk1MjhkNzE0MmQ0Njk5M2QtOGVmZjdhMjQ4MzBiY2MxZDc1NDIxMzQ5OTAyZmUyNWY6RFNNOkxPVw",
    hourlyShadeUrls := seq(12, HourlyShadeUrl),
    imageryProcessedDate := Some(Date(month := 8, day := 4, year := 2023)))

  /** The data layers are constructed, and they keep the one-URL-per-month rule. */
  lemma DataLayersFixtureValid()
    ensures DataLayersFixture.Valid()
    ensures DataLayersFixture.TwelveShadeUrls()
  {
  }

  lemma DataLayersFixtureConstructs()
    ensures ParseDataLayers(DumpDataLayers(DataLayersFixture, true)) == Ok(DataLayersFixture)
  {
    DataLayersRoundTrip(DataLayersFixture);
  }
}
