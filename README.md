# A verified model of the Solar API mock

This project models the core of `solar-api-mock`, a stand-in for a solar-data HTTP API. The service has two entry points, `get_building_insights` and `get_data_layers`. Each ignores its arguments, builds one hard-coded record tree through a schema builder, and returns that tree serialised with `exclude_none=True`.

What the model covers:

- **Records** (`Common`, `Solar`, `Financial`, `Layers`, `Insights`). Each pydantic class of the `properties` package is a datatype. A `Valid()` predicate holds the declared `ge`/`le` bounds. Instance documents are kept in a small JSON datatype (`Json.Value`).
- **Construction** (`ParseX`). Calling a class with keyword arguments is modelled as reading a JSON object. The rules are pydantic v2's:
  - keys the class does not declare are ignored;
  - a missing required field is an error at that field;
  - an absent `default=None` field becomes `None`;
  - an explicit `null` is a type error.
- **Serialisation** (`DumpX`). `model_dump` with or without `exclude_none`. The round-trip lemmas tie serialisation back to construction.
- **Documented rules the code does not check.** Examples are the Money sign rule, layout ordering and counts, the default bill and the radius limits. Each is a separate predicate, with lemmas about it and about the fixtures.
- **Hourly-shade bit encoding** (`Layers`). It is modelled on `bv32`.
- **Request parameters** (`Params`). The two `fill_optional_values` validators become methods of classes that update their own fields. Each is modelled as written and as evidently intended (see Findings).
- **Schema registry and builders** (`Schema`). `SchemaBuilder` is a class. `Create` checks the name against the registry, and `ConstructModel` looks up the record class by name and constructs the record.
- **The fixtures** (`Fixtures`) and **the entry points** (`Endpoints`).
- **The route tests' expected dictionaries** (`RouteTests`). Each is proved equal to what the entry points return.

Where the code and its documentation disagree, the model follows the code:

- The Money sign rule, the radius and pixel-size limits, "first N panels", "at least 4 panels" and "exactly one default bill" are documented but never enforced. They are predicates, not construction checks.
- The entry points validate nothing. The functions of `main.py` ignore their arguments, and the route test calls them with `{"lat": 0, "lon": 0}`, which is not a `LatLng`.
- So `Endpoints` takes its arguments as raw JSON values.

## Model

| member | source | states |
|---|---|---|
| Common.ParseLatLng | solar_api_mock/core/properties/common.py:6-24 | Constructing `LatLngProperties` from keyword arguments refuses anything but an object with a model-type error at the root, and every record it builds keeps the declared `ge`/`le` bounds of all its fields, nested ones included. |
| Common.LatLngFromAccepted | solar_api_mock/core/properties/common.py:6-24 | Keyword arguments in which each field without a default is present and reads, with its declared type and bounds, as the record's value construct exactly that record: keys the class does not declare are ignored. |
| Common.LatLngAcceptedFrom | solar_api_mock/core/properties/common.py:6-24 | Conversely, every successful construction is of that shape, so construction succeeds exactly on such arguments. |
| Common.DumpLatLng | solar_api_mock/core/properties/common.py:6-24 | Serialising a `LatLngProperties` (`model_dump`) gives a JSON object; its keys and its read-back are the lemmas below. |
| Common.DumpLatLngKeys | solar_api_mock/core/properties/common.py:6-24 | The serialised object has exactly the declared field names, all fields being required. |
| Common.DumpLatLngNoNulls | solar_api_mock/core/properties/common.py:6-24 | With unset fields dropped (`exclude_none=True`) no `null` appears anywhere in the serialised tree, nested records and lists included. |
| Common.LatLngRoundTrip | solar_api_mock/core/properties/common.py:6-24 | Serialising a record with `exclude_none=True` and constructing from the result gives back the same record when it keeps its field bounds. |
| Common.ParseLatLngBox | solar_api_mock/core/properties/common.py:27-35 | Constructing `LatLngBoxProperties` from keyword arguments refuses anything but an object with a model-type error at the root, and every record it builds keeps the declared `ge`/`le` bounds of all its fields, nested ones included. |
| Common.LatLngBoxFromAccepted | solar_api_mock/core/properties/common.py:27-35 | Keyword arguments in which each field without a default is present and reads, with its declared type and bounds, as the record's value construct exactly that record: keys the class does not declare are ignored. |
| Common.LatLngBoxAcceptedFrom | solar_api_mock/core/properties/common.py:27-35 | Conversely, every successful construction is of that shape, so construction succeeds exactly on such arguments. |
| Common.DumpLatLngBox | solar_api_mock/core/properties/common.py:27-35 | Serialising a `LatLngBoxProperties` (`model_dump`) gives a JSON object; its keys and its read-back are the lemmas below. |
| Common.DumpLatLngBoxKeys | solar_api_mock/core/properties/common.py:27-35 | The serialised object has exactly the declared field names, all fields being required. |
| Common.DumpLatLngBoxNoNulls | solar_api_mock/core/properties/common.py:27-35 | With unset fields dropped (`exclude_none=True`) no `null` appears anywhere in the serialised tree, nested records and lists included. |
| Common.LatLngBoxRoundTrip | solar_api_mock/core/properties/common.py:27-35 | Serialising a record with `exclude_none=True` and constructing from the result gives back the same record when it keeps its field bounds. |
| Common.ParseMoney | solar_api_mock/core/properties/common.py:38-57 | Constructing `MoneyProperties` from keyword arguments refuses anything but an object with a model-type error at the root, and every record it builds keeps the declared `ge`/`le` bounds of all its fields, nested ones included. |
| Common.MoneyFromAccepted | solar_api_mock/core/properties/common.py:38-57 | Keyword arguments in which each field without a default is present and reads, with its declared type and bounds, as the record's value; each `default=None` field (`nanos`) is either absent, giving `None`, or reads as its value construct exactly that record: keys the class does not declare are ignored. |
| Common.MoneyAcceptedFrom | solar_api_mock/core/properties/common.py:38-57 | Conversely, every successful construction is of that shape, so construction succeeds exactly on such arguments. |
| Common.DumpMoney | solar_api_mock/core/properties/common.py:38-57 | Serialising a `MoneyProperties` (`model_dump`) gives a JSON object; its keys and its read-back are the lemmas below. |
| Common.DumpMoneyKeys | solar_api_mock/core/properties/common.py:38-57 | The serialised object has exactly the declared field names, except that with `exclude_none` an unset `nanos` is left out; without it the key is written (as `null`). |
| Common.DumpMoneyNoNulls | solar_api_mock/core/properties/common.py:38-57 | With unset fields dropped (`exclude_none=True`) no `null` appears anywhere in the serialised tree, nested records and lists included. |
| Common.MoneyRoundTrip | solar_api_mock/core/properties/common.py:38-57 | Serialising a record with `exclude_none=True` and constructing from the result gives back the same record when it keeps its field bounds. |
| Common.ParseDate | solar_api_mock/core/properties/common.py:60-83 | Constructing `DateProperties` from keyword arguments refuses anything but an object with a model-type error at the root, and every record it builds keeps the declared `ge`/`le` bounds of all its fields, nested ones included. |
| Common.DateFromAccepted | solar_api_mock/core/properties/common.py:60-83 | Keyword arguments in which each field without a default is present and reads, with its declared type and bounds, as the record's value construct exactly that record: keys the class does not declare are ignored. |
| Common.DateAcceptedFrom | solar_api_mock/core/properties/common.py:60-83 | Conversely, every successful construction is of that shape, so construction succeeds exactly on such arguments. |
| Common.DumpDate | solar_api_mock/core/properties/common.py:60-83 | Serialising a `DateProperties` (`model_dump`) gives a JSON object; its keys and its read-back are the lemmas below. |
| Common.DumpDateKeys | solar_api_mock/core/properties/common.py:60-83 | The serialised object has exactly the declared field names, all fields being required. |
| Common.DumpDateNoNulls | solar_api_mock/core/properties/common.py:60-83 | With unset fields dropped (`exclude_none=True`) no `null` appears anywhere in the serialised tree, nested records and lists included. |
| Common.DateRoundTrip | solar_api_mock/core/properties/common.py:60-83 | Serialising a record with `exclude_none=True` and constructing from the result gives back the same record when it keeps its field bounds. |
| Layers.ParseDataLayers | solar_api_mock/core/properties/data_layers.py:9-52 | Constructing `DataLayersProperties` from keyword arguments refuses anything but an object with a model-type error at the root, and every record it builds keeps the declared `ge`/`le` bounds of all its fields, nested ones included. |
| Layers.DataLayersFromAccepted | solar_api_mock/core/properties/data_layers.py:9-52 | Keyword arguments in which each field without a default is present and reads, with its declared type and bounds, as the record's value; each `default=None` field (`imageryProcessedDate`) is either absent, giving `None`, or reads as its value construct exactly that record: keys the class does not declare are ignored. |
| Layers.DataLayersAcceptedFrom | solar_api_mock/core/properties/data_layers.py:9-52 | Conversely, every successful construction is of that shape, so construction succeeds exactly on such arguments. |
| Layers.DumpDataLayers | solar_api_mock/core/properties/data_layers.py:9-52 | Serialising a `DataLayersProperties` (`model_dump`) gives a JSON object; its keys and its read-back are the lemmas below. |
| Layers.DumpDataLayersKeys | solar_api_mock/core/properties/data_layers.py:9-52 | The serialised object has exactly the declared field names, except that with `exclude_none` an unset `imageryProcessedDate` is left out; without it the key is written (as `null`). |
| Layers.DumpDataLayersNoNulls | solar_api_mock/core/properties/data_layers.py:9-52 | With unset fields dropped (`exclude_none=True`) no `null` appears anywhere in the serialised tree, nested records and lists included. |
| Layers.DataLayersRoundTrip | solar_api_mock/core/properties/data_layers.py:9-52 | Serialising a record with `exclude_none=True` and constructing from the result gives back the same record when it keeps its field bounds. |
| Insights.ParseBuildingInsights | solar_api_mock/core/properties/building_insights.py:14-54 | Constructing `BuildingInsightsProperties` from keyword arguments refuses anything but an object with a model-type error at the root, and every record it builds keeps the declared `ge`/`le` bounds of all its fields, nested ones included. |
| Insights.BuildingInsightsFromAccepted | solar_api_mock/core/properties/building_insights.py:14-54 | Keyword arguments in which each field without a default is present and reads, with its declared type and bounds, as the record's value; each `default=None` field (`imageryProcessedDate`, `imageryQuality`) is either absent, giving `None`, or reads as its value construct exactly that record: keys the class does not declare are ignored. |
| Insights.BuildingInsightsAcceptedFrom | solar_api_mock/core/properties/building_insights.py:14-54 | Conversely, every successful construction is of that shape, so construction succeeds exactly on such arguments. |
| Insights.DumpBuildingInsights | solar_api_mock/core/properties/building_insights.py:14-54 | Serialising a `BuildingInsightsProperties` (`model_dump`) gives a JSON object; its keys and its read-back are the lemmas below. |
| Insights.DumpBuildingInsightsKeys | solar_api_mock/core/properties/building_insights.py:14-54 | The serialised object has exactly the declared field names, except that with `exclude_none` an unset `imageryProcessedDate`, `imageryQuality` is left out; without it the key is written (as `null`). |
| Insights.DumpBuildingInsightsNoNulls | solar_api_mock/core/properties/building_insights.py:14-54 | With unset fields dropped (`exclude_none=True`) no `null` appears anywhere in the serialised tree, nested records and lists included. |
| Insights.BuildingInsightsRoundTrip | solar_api_mock/core/properties/building_insights.py:14-54 | Serialising a record with `exclude_none=True` and constructing from the result gives back the same record when it keeps its field bounds. |
| Financial.ParseFinancialDetails | solar_api_mock/core/properties/financial_analysis.py:7-49 | Constructing `FinancialDetailsProperties` from keyword arguments refuses anything but an object with a model-type error at the root, and every record it builds keeps the declared `ge`/`le` bounds of all its fields, nested ones included. |
| Financial.FinancialDetailsFromAccepted | solar_api_mock/core/properties/financial_analysis.py:7-49 | Keyword arguments in which each field without a default is present and reads, with its declared type and bounds, as the record's value construct exactly that record: keys the class does not declare are ignored. |
| Financial.FinancialDetailsAcceptedFrom | solar_api_mock/core/properties/financial_analysis.py:7-49 | Conversely, every successful construction is of that shape, so construction succeeds exactly on such arguments. |
| Financial.DumpFinancialDetails | solar_api_mock/core/properties/financial_analysis.py:7-49 | Serialising a `FinancialDetailsProperties` (`model_dump`) gives a JSON object; its keys and its read-back are the lemmas below. |
| Financial.DumpFinancialDetailsKeys | solar_api_mock/core/properties/financial_analysis.py:7-49 | The serialised object has exactly the declared field names, all fields being required. |
| Financial.DumpFinancialDetailsNoNulls | solar_api_mock/core/properties/financial_analysis.py:7-49 | With unset fields dropped (`exclude_none=True`) no `null` appears anywhere in the serialised tree, nested records and lists included. |
| Financial.FinancialDetailsRoundTrip | solar_api_mock/core/properties/financial_analysis.py:7-49 | Serialising a record with `exclude_none=True` and constructing from the result gives back the same record when it keeps its field bounds. |
| Financial.ParseSavingsOverTime | solar_api_mock/core/properties/financial_analysis.py:52-73 | Constructing `SavingsOverTimeProperties` from keyword arguments refuses anything but an object with a model-type error at the root, and every record it builds keeps the declared `ge`/`le` bounds of all its fields, nested ones included. |
| Financial.SavingsOverTimeFromAccepted | solar_api_mock/core/properties/financial_analysis.py:52-73 | Keyword arguments in which each field without a default is present and reads, with its declared type and bounds, as the record's value construct exactly that record: keys the class does not declare are ignored. |
| Financial.SavingsOverTimeAcceptedFrom | solar_api_mock/core/properties/financial_analysis.py:52-73 | Conversely, every successful construction is of that shape, so construction succeeds exactly on such arguments. |
| Financial.DumpSavingsOverTime | solar_api_mock/core/properties/financial_analysis.py:52-73 | Serialising a `SavingsOverTimeProperties` (`model_dump`) gives a JSON object; its keys and its read-back are the lemmas below. |
| Financial.DumpSavingsOverTimeKeys | solar_api_mock/core/properties/financial_analysis.py:52-73 | The serialised object has exactly the declared field names, all fields being required. |
| Financial.DumpSavingsOverTimeNoNulls | solar_api_mock/core/properties/financial_analysis.py:52-73 | With unset fields dropped (`exclude_none=True`) no `null` appears anywhere in the serialised tree, nested records and lists included. |
| Financial.SavingsOverTimeRoundTrip | solar_api_mock/core/properties/financial_analysis.py:52-73 | Serialising a record with `exclude_none=True` and constructing from the result gives back the same record when it keeps its field bounds. |
| Financial.ParseLeasingSavings | solar_api_mock/core/properties/financial_analysis.py:76-90 | Constructing `LeasingSavingsProperties` from keyword arguments refuses anything but an object with a model-type error at the root, and every record it builds keeps the declared `ge`/`le` bounds of all its fields, nested ones included. |
| Financial.LeasingSavingsFromAccepted | solar_api_mock/core/properties/financial_analysis.py:76-90 | Keyword arguments in which each field without a default is present and reads, with its declared type and bounds, as the record's value construct exactly that record: keys the class does not declare are ignored. |
| Financial.LeasingSavingsAcceptedFrom | solar_api_mock/core/properties/financial_analysis.py:76-90 | Conversely, every successful construction is of that shape, so construction succeeds exactly on such arguments. |
| Financial.DumpLeasingSavings | solar_api_mock/core/properties/financial_analysis.py:76-90 | Serialising a `LeasingSavingsProperties` (`model_dump`) gives a JSON object; its keys and its read-back are the lemmas below. |
| Financial.DumpLeasingSavingsKeys | solar_api_mock/core/properties/financial_analysis.py:76-90 | The serialised object has exactly the declared field names, all fields being required. |
| Financial.DumpLeasingSavingsNoNulls | solar_api_mock/core/properties/financial_analysis.py:76-90 | With unset fields dropped (`exclude_none=True`) no `null` appears anywhere in the serialised tree, nested records and lists included. |
| Financial.LeasingSavingsRoundTrip | solar_api_mock/core/properties/financial_analysis.py:76-90 | Serialising a record with `exclude_none=True` and constructing from the result gives back the same record when it keeps its field bounds. |
| Financial.ParseCashPurchaseSavings | solar_api_mock/core/properties/financial_analysis.py:93-112 | Constructing `CashPurchaseSavingsProperties` from keyword arguments refuses anything but an object with a model-type error at the root, and every record it builds keeps the declared `ge`/`le` bounds of all its fields, nested ones included. |
| Financial.CashPurchaseSavingsFromAccepted | solar_api_mock/core/properties/financial_analysis.py:93-112 | Keyword arguments in which each field without a default is present and reads, with its declared type and bounds, as the record's value construct exactly that record: keys the class does not declare are ignored. |
| Financial.CashPurchaseSavingsAcceptedFrom | solar_api_mock/core/properties/financial_analysis.py:93-112 | Conversely, every successful construction is of that shape, so construction succeeds exactly on such arguments. |
| Financial.DumpCashPurchaseSavings | solar_api_mock/core/properties/financial_analysis.py:93-112 | Serialising a `CashPurchaseSavingsProperties` (`model_dump`) gives a JSON object; its keys and its read-back are the lemmas below. |
| Financial.DumpCashPurchaseSavingsKeys | solar_api_mock/core/properties/financial_analysis.py:93-112 | The serialised object has exactly the declared field names, all fields being required. |
| Financial.DumpCashPurchaseSavingsNoNulls | solar_api_mock/core/properties/financial_analysis.py:93-112 | With unset fields dropped (`exclude_none=True`) no `null` appears anywhere in the serialised tree, nested records and lists included. |
| Financial.CashPurchaseSavingsRoundTrip | solar_api_mock/core/properties/financial_analysis.py:93-112 | Serialising a record with `exclude_none=True` and constructing from the result gives back the same record when it keeps its field bounds. |
| Financial.ParseFinancedPurchaseSavings | solar_api_mock/core/properties/financial_analysis.py:115-131 | Constructing `FinancedPurchaseSavingsProperties` from keyword arguments refuses anything but an object with a model-type error at the root, and every record it builds keeps the declared `ge`/`le` bounds of all its fields, nested ones included. |
| Financial.FinancedPurchaseSavingsFromAccepted | solar_api_mock/core/properties/financial_analysis.py:115-131 | Keyword arguments in which each field without a default is present and reads, with its declared type and bounds, as the record's value construct exactly that record: keys the class does not declare are ignored. |
| Financial.FinancedPurchaseSavingsAcceptedFrom | solar_api_mock/core/properties/financial_analysis.py:115-131 | Conversely, every successful construction is of that shape, so construction succeeds exactly on such arguments. |
| Financial.DumpFinancedPurchaseSavings | solar_api_mock/core/properties/financial_analysis.py:115-131 | Serialising a `FinancedPurchaseSavingsProperties` (`model_dump`) gives a JSON object; its keys and its read-back are the lemmas below. |
| Financial.DumpFinancedPurchaseSavingsKeys | solar_api_mock/core/properties/financial_analysis.py:115-131 | The serialised object has exactly the declared field names, all fields being required. |
| Financial.DumpFinancedPurchaseSavingsNoNulls | solar_api_mock/core/properties/financial_analysis.py:115-131 | With unset fields dropped (`exclude_none=True`) no `null` appears anywhere in the serialised tree, nested records and lists included. |
| Financial.FinancedPurchaseSavingsRoundTrip | solar_api_mock/core/properties/financial_analysis.py:115-131 | Serialising a record with `exclude_none=True` and constructing from the result gives back the same record when it keeps its field bounds. |
| Financial.ParseFinancialAnalysis | solar_api_mock/core/properties/financial_analysis.py:134-165 | Constructing `FinancialAnalysisProperties` from keyword arguments refuses anything but an object with a model-type error at the root, and every record it builds keeps the declared `ge`/`le` bounds of all its fields, nested ones included. |
| Financial.FinancialAnalysisFromAccepted | solar_api_mock/core/properties/financial_analysis.py:134-165 | Keyword arguments in which each field without a default is present and reads, with its declared type and bounds, as the record's value; each `default=None` field (`defaultBill`, `financialDetails`, `cashPurchaseSavings`, `leasingSavings`, `financedPurchaseSavings`) is either absent, giving `None`, or reads as its value construct exactly that record: keys the class does not declare are ignored. |
| Financial.FinancialAnalysisAcceptedFrom | solar_api_mock/core/properties/financial_analysis.py:134-165 | Conversely, every successful construction is of that shape, so construction succeeds exactly on such arguments. |
| Financial.DumpFinancialAnalysis | solar_api_mock/core/properties/financial_analysis.py:134-165 | Serialising a `FinancialAnalysisProperties` (`model_dump`) gives a JSON object; its keys and its read-back are the lemmas below. |
| Financial.DumpFinancialAnalysisKeys | solar_api_mock/core/properties/financial_analysis.py:134-165 | The serialised object has exactly the declared field names, except that with `exclude_none` an unset `defaultBill`, `financialDetails`, `cashPurchaseSavings`, `leasingSavings`, `financedPurchaseSavings` is left out; without it the key is written (as `null`). |
| Financial.DumpFinancialAnalysisNoNulls | solar_api_mock/core/properties/financial_analysis.py:134-165 | With unset fields dropped (`exclude_none=True`) no `null` appears anywhere in the serialised tree, nested records and lists included. |
| Financial.FinancialAnalysisRoundTrip | solar_api_mock/core/properties/financial_analysis.py:134-165 | Serialising a record with `exclude_none=True` and constructing from the result gives back the same record when it keeps its field bounds. |
| Solar.ParseStats | solar_api_mock/core/properties/solar_potential.py:12-23 | Constructing `SizeAndSunshineStatsProperties` from keyword arguments refuses anything but an object with a model-type error at the root. |
| Solar.StatsFromAccepted | solar_api_mock/core/properties/solar_potential.py:12-23 | Keyword arguments in which each field without a default is present and reads, with its declared type and bounds, as the record's value construct exactly that record: keys the class does not declare are ignored. |
| Solar.StatsAcceptedFrom | solar_api_mock/core/properties/solar_potential.py:12-23 | Conversely, every successful construction is of that shape, so construction succeeds exactly on such arguments. |
| Solar.DumpStats | solar_api_mock/core/properties/solar_potential.py:12-23 | Serialising a `SizeAndSunshineStatsProperties` (`model_dump`) gives a JSON object; its keys and its read-back are the lemmas below. |
| Solar.DumpStatsKeys | solar_api_mock/core/properties/solar_potential.py:12-23 | The serialised object has exactly the declared field names, all fields being required. |
| Solar.DumpStatsNoNulls | solar_api_mock/core/properties/solar_potential.py:12-23 | With unset fields dropped (`exclude_none=True`) no `null` appears anywhere in the serialised tree, nested records and lists included. |
| Solar.StatsRoundTrip | solar_api_mock/core/properties/solar_potential.py:12-23 | Serialising a record with `exclude_none=True` and constructing from the result gives back the same record. |
| Solar.ParseSummary | solar_api_mock/core/properties/solar_potential.py:26-44 | Constructing `RoofSegmentSummaryProperties` from keyword arguments refuses anything but an object with a model-type error at the root. |
| Solar.SummaryFromAccepted | solar_api_mock/core/properties/solar_potential.py:26-44 | Keyword arguments in which each field without a default is present and reads, with its declared type and bounds, as the record's value construct exactly that record: keys the class does not declare are ignored. |
| Solar.SummaryAcceptedFrom | solar_api_mock/core/properties/solar_potential.py:26-44 | Conversely, every successful construction is of that shape, so construction succeeds exactly on such arguments. |
| Solar.DumpSummary | solar_api_mock/core/properties/solar_potential.py:26-44 | Serialising a `RoofSegmentSummaryProperties` (`model_dump`) gives a JSON object; its keys and its read-back are the lemmas below. |
| Solar.DumpSummaryKeys | solar_api_mock/core/properties/solar_potential.py:26-44 | The serialised object has exactly the declared field names, all fields being required. |
| Solar.DumpSummaryNoNulls | solar_api_mock/core/properties/solar_potential.py:26-44 | With unset fields dropped (`exclude_none=True`) no `null` appears anywhere in the serialised tree, nested records and lists included. |
| Solar.SummaryRoundTrip | solar_api_mock/core/properties/solar_potential.py:26-44 | Serialising a record with `exclude_none=True` and constructing from the result gives back the same record. |
| Solar.ParseSegmentStats | solar_api_mock/core/properties/solar_potential.py:47-68 | Constructing `RoofSegmentSizeAndSunshineStatsProperties` from keyword arguments refuses anything but an object with a model-type error at the root, and every record it builds keeps the declared `ge`/`le` bounds of all its fields, nested ones included. |
| Solar.SegmentStatsFromAccepted | solar_api_mock/core/properties/solar_potential.py:47-68 | Keyword arguments in which each field without a default is present and reads, with its declared type and bounds, as the record's value construct exactly that record: keys the class does not declare are ignored. |
| Solar.SegmentStatsAcceptedFrom | solar_api_mock/core/properties/solar_potential.py:47-68 | Conversely, every successful construction is of that shape, so construction succeeds exactly on such arguments. |
| Solar.DumpSegmentStats | solar_api_mock/core/properties/solar_potential.py:47-68 | Serialising a `RoofSegmentSizeAndSunshineStatsProperties` (`model_dump`) gives a JSON object; its keys and its read-back are the lemmas below. |
| Solar.DumpSegmentStatsKeys | solar_api_mock/core/properties/solar_potential.py:47-68 | The serialised object has exactly the declared field names, all fields being required. |
| Solar.DumpSegmentStatsNoNulls | solar_api_mock/core/properties/solar_potential.py:47-68 | With unset fields dropped (`exclude_none=True`) no `null` appears anywhere in the serialised tree, nested records and lists included. |
| Solar.SegmentStatsRoundTrip | solar_api_mock/core/properties/solar_potential.py:47-68 | Serialising a record with `exclude_none=True` and constructing from the result gives back the same record when it keeps its field bounds. |
| Solar.ParseSolarPanel | solar_api_mock/core/properties/solar_potential.py:71-92 | Constructing `SolarPanelProperties` from keyword arguments refuses anything but an object with a model-type error at the root, and every record it builds keeps the declared `ge`/`le` bounds of all its fields, nested ones included. |
| Solar.SolarPanelFromAccepted | solar_api_mock/core/properties/solar_potential.py:71-92 | Keyword arguments in which each field without a default is present and reads, with its declared type and bounds, as the record's value construct exactly that record: keys the class does not declare are ignored. |
| Solar.SolarPanelAcceptedFrom | solar_api_mock/core/properties/solar_potential.py:71-92 | Conversely, every successful construction is of that shape, so construction succeeds exactly on such arguments. |
| Solar.DumpSolarPanel | solar_api_mock/core/properties/solar_potential.py:71-92 | Serialising a `SolarPanelProperties` (`model_dump`) gives a JSON object; its keys and its read-back are the lemmas below. |
| Solar.DumpSolarPanelKeys | solar_api_mock/core/properties/solar_potential.py:71-92 | The serialised object has exactly the declared field names, all fields being required. |
| Solar.DumpSolarPanelNoNulls | solar_api_mock/core/properties/solar_potential.py:71-92 | With unset fields dropped (`exclude_none=True`) no `null` appears anywhere in the serialised tree, nested records and lists included. |
| Solar.SolarPanelRoundTrip | solar_api_mock/core/properties/solar_potential.py:71-92 | Serialising a record with `exclude_none=True` and constructing from the result gives back the same record when it keeps its field bounds. |
| Solar.ParseConfig | solar_api_mock/core/properties/solar_potential.py:95-107 | Constructing `SolarPanelConfigProperties` from keyword arguments refuses anything but an object with a model-type error at the root. |
| Solar.ConfigFromAccepted | solar_api_mock/core/properties/solar_potential.py:95-107 | Keyword arguments in which each field without a default is present and reads, with its declared type and bounds, as the record's value construct exactly that record: keys the class does not declare are ignored. |
| Solar.ConfigAcceptedFrom | solar_api_mock/core/properties/solar_potential.py:95-107 | Conversely, every successful construction is of that shape, so construction succeeds exactly on such arguments. |
| Solar.DumpConfig | solar_api_mock/core/properties/solar_potential.py:95-107 | Serialising a `SolarPanelConfigProperties` (`model_dump`) gives a JSON object; its keys and its read-back are the lemmas below. |
| Solar.DumpConfigKeys | solar_api_mock/core/properties/solar_potential.py:95-107 | The serialised object has exactly the declared field names, all fields being required. |
| Solar.DumpConfigNoNulls | solar_api_mock/core/properties/solar_potential.py:95-107 | With unset fields dropped (`exclude_none=True`) no `null` appears anywhere in the serialised tree, nested records and lists included. |
| Solar.ConfigRoundTrip | solar_api_mock/core/properties/solar_potential.py:95-107 | Serialising a record with `exclude_none=True` and constructing from the result gives back the same record. |
| Solar.ParseSolarPotential | solar_api_mock/core/properties/solar_potential.py:110-160 | Constructing `SolarPotentialProperties` from keyword arguments refuses anything but an object with a model-type error at the root, and every record it builds keeps the declared `ge`/`le` bounds of all its fields, nested ones included. |
| Solar.SolarPotentialFromAccepted | solar_api_mock/core/properties/solar_potential.py:110-160 | Keyword arguments in which each field without a default is present and reads, with its declared type and bounds, as the record's value; each `default=None` field (`buildingStats`, `solarPanels`) is either absent, giving `None`, or reads as its value construct exactly that record: keys the class does not declare are ignored. |
| Solar.SolarPotentialAcceptedFrom | solar_api_mock/core/properties/solar_potential.py:110-160 | Conversely, every successful construction is of that shape, so construction succeeds exactly on such arguments. |
| Solar.DumpSolarPotential | solar_api_mock/core/properties/solar_potential.py:110-160 | Serialising a `SolarPotentialProperties` (`model_dump`) gives a JSON object; its keys and its read-back are the lemmas below. |
| Solar.DumpSolarPotentialKeys | solar_api_mock/core/properties/solar_potential.py:110-160 | The serialised object has exactly the declared field names, except that with `exclude_none` an unset `buildingStats`, `solarPanels` is left out; without it the key is written (as `null`). |
| Solar.DumpSolarPotentialNoNulls | solar_api_mock/core/properties/solar_potential.py:110-160 | With unset fields dropped (`exclude_none=True`) no `null` appears anywhere in the serialised tree, nested records and lists included. |
| Solar.SolarPotentialRoundTrip | solar_api_mock/core/properties/solar_potential.py:110-160 | Serialising a record with `exclude_none=True` and constructing from the result gives back the same record when it keeps its field bounds. |
| Financial.AsAnalyses | solar_api_mock/core/properties/solar_potential.py:138-140 | The list field `financialAnalyses` accepts only an array, of the same length, whose every item constructs the element at its position; every element keeps its bounds. |
| Financial.DumpAnalyses | solar_api_mock/core/properties/solar_potential.py:138-140 | The list serialises to an array of the same length whose item i is the serialisation of element i. |
| Financial.AnalysesRoundTrip | solar_api_mock/core/properties/solar_potential.py:138-140 | Serialising the list and reading it back gives the same list when every element keeps its bounds. |
| Financial.AnalysesNoNulls | solar_api_mock/core/properties/solar_potential.py:138-140 | With unset fields dropped, no item of the serialised list holds a `null`. |
| Solar.AsSummaries | solar_api_mock/core/properties/solar_potential.py:99-101 | The list field `roofSegmentSummaries` accepts only an array, of the same length, whose every item constructs the element at its position. |
| Solar.DumpSummaries | solar_api_mock/core/properties/solar_potential.py:99-101 | The list serialises to an array of the same length whose item i is the serialisation of element i. |
| Solar.SummariesRoundTrip | solar_api_mock/core/properties/solar_potential.py:99-101 | Serialising the list and reading it back gives the same list. |
| Solar.SummariesNoNulls | solar_api_mock/core/properties/solar_potential.py:99-101 | With unset fields dropped, no item of the serialised list holds a `null`. |
| Solar.AsSegmentStatsList | solar_api_mock/core/properties/solar_potential.py:151-153 | The list field `roofSegmentStats` accepts only an array, of the same length, whose every item constructs the element at its position; every element keeps its bounds. |
| Solar.DumpSegmentStatsList | solar_api_mock/core/properties/solar_potential.py:151-153 | The list serialises to an array of the same length whose item i is the serialisation of element i. |
| Solar.SegmentStatsListRoundTrip | solar_api_mock/core/properties/solar_potential.py:151-153 | Serialising the list and reading it back gives the same list when every element keeps its bounds. |
| Solar.SegmentStatsListNoNulls | solar_api_mock/core/properties/solar_potential.py:151-153 | With unset fields dropped, no item of the serialised list holds a `null`. |
| Solar.AsSolarPanels | solar_api_mock/core/properties/solar_potential.py:157-160 | The list field `solarPanels` accepts only an array, of the same length, whose every item constructs the element at its position; every element keeps its bounds. |
| Solar.DumpSolarPanels | solar_api_mock/core/properties/solar_potential.py:157-160 | The list serialises to an array of the same length whose item i is the serialisation of element i. |
| Solar.SolarPanelsRoundTrip | solar_api_mock/core/properties/solar_potential.py:157-160 | Serialising the list and reading it back gives the same list when every element keeps its bounds. |
| Solar.SolarPanelsNoNulls | solar_api_mock/core/properties/solar_potential.py:157-160 | With unset fields dropped, no item of the serialised list holds a `null`. |
| Solar.AsConfigs | solar_api_mock/core/properties/solar_potential.py:135-137 | The list field `solarPanelConfigs` accepts only an array, of the same length, whose every item constructs the element at its position. |
| Solar.DumpConfigs | solar_api_mock/core/properties/solar_potential.py:135-137 | The list serialises to an array of the same length whose item i is the serialisation of element i. |
| Solar.ConfigsRoundTrip | solar_api_mock/core/properties/solar_potential.py:135-137 | Serialising the list and reading it back gives the same list. |
| Solar.ConfigsNoNulls | solar_api_mock/core/properties/solar_potential.py:135-137 | With unset fields dropped, no item of the serialised list holds a `null`. |
| Common.ParseQuality | solar_api_mock/core/properties/data_layers.py:30-34 | The imagery-quality literal accepts exactly the five names `IMAGERY_QUALITY_UNSPECIFIED`, `HIGH`, `MEDIUM`, `LOW`, `BASE`; an accepted value is the string of the quality it names. |
| Common.QualityRoundTrip | solar_api_mock/core/properties/data_layers.py:30-34 | Writing a quality as its name and reading it back gives the same quality. |
| Common.UltraIsNotAQuality | solar_api_mock/core/properties/building_insights.py:28-33 | A name outside the literal (`ULTRA`) is refused with a literal error. |
| Common.LatLngAcceptance | solar_api_mock/core/properties/common.py:15-24 | A position is constructed exactly when latitude is in [-90, 90] and longitude in [-180, 180], both ends included, and then holds those two numbers. |
| Common.LatLngEdges | solar_api_mock/core/properties/common.py:15-24 | The range ends are accepted; 91 for latitude or 181 for longitude fails `le` at that field, -91 for latitude fails `ge`. |
| Common.LatLngBoxAcceptance | solar_api_mock/core/properties/common.py:27-35 | A box is constructed exactly when both corners construct; a box without `sw` is refused as missing `sw`. |
| Common.LatLngBoxIgnoresUndeclared | solar_api_mock/core/properties/common.py:27-35 | Adding keys the box does not declare does not change the result of construction. |
| Common.MoneyNullDoesNotReadBack | solar_api_mock/core/properties/common.py:41-51 | Without `exclude_none`, an unset `nanos` is written as `null`, which the integer field refuses: that serialisation does not construct again. |
| Common.MoneyRequiresUnits | solar_api_mock/core/properties/common.py:52-54 | Money without `units` is never constructed; with `nanos` also absent the error is `units` missing. |
| Common.NanosBounds | solar_api_mock/core/properties/common.py:41-51 | With `units` and `currencyCode` given, an integer `nanos` is accepted exactly when it lies in [-999999999, 999999999], and is then stored as given. |
| Common.SignRuleNotEnforced | solar_api_mock/core/properties/common.py:41-51 | Construction accepts positive `units` with negative `nanos`: the documented sign rule is not checked. |
| Common.SignRuleExample | solar_api_mock/core/properties/common.py:41-51 | The documented example, `units`=-1 and `nanos`=-750000000, keeps the sign rule and stands for -1.75 units. |
| Common.DateAcceptance | solar_api_mock/core/properties/common.py:69-83 | A date is constructed exactly when month is in [0, 12], day in [0, 31] and year in [0, 9999], and then holds those numbers. |
| Common.DateExamples | solar_api_mock/core/properties/common.py:60-83 | Partial dates with a zero year, month or day are accepted, as is 31 February (no calendar check); month 13, day 32 and year 10000 fail `le` at their field. |
| Layers.DaysInMonth | solar_api_mock/core/properties/data_layers.py:47-49 | Months have 28 to 31 days: exactly February has 28 (no leap days), exactly April, June, September and November have 30, the rest 31. |
| Layers.DaysInYear | solar_api_mock/core/properties/data_layers.py:47-49 | The twelve month lengths add up to a common year of 365 days. |
| Layers.June22At4pm | solar_api_mock/core/properties/data_layers.py:47-49 | The worked example: whether a point saw the sun at 4pm on 22 June is bit 21 of band 16 of the sixth raster. |
| Layers.InvalidPixelHasBit31 | solar_api_mock/core/properties/data_layers.py:47-49 | The invalid-location value -9999, stored as a 32-bit two's-complement integer, has bit 31 set. |
| Layers.NoDayUsesBit31 | solar_api_mock/core/properties/data_layers.py:47-49 | No day of any month is stored in bit 31. |
| Layers.ShiftBelowBit31 | solar_api_mock/core/properties/data_layers.py:47-49 | Helper for the bit-31 lemmas: shifting 1 left by at most 30 places leaves bit 31 clear. |
| Layers.InvalidPixelIsNotData | solar_api_mock/core/properties/data_layers.py:47-49 | The invalid-location value is not a valid pixel of any month, so it cannot be read as sunshine data. |
| Layers.NoSunOnMissingDays | solar_api_mock/core/properties/data_layers.py:47-49 | A valid pixel reads no sunshine on a day its month does not have. |
| Layers.DayBitAboveMask | solar_api_mock/core/properties/data_layers.py:47-49 | The bit of a day past the end of the month lies outside that month's mask. |
| Insights.ResourceName | solar_api_mock/core/properties/building_insights.py:34-36 | The resource name is the `buildings/` prefix followed by the place id. |
| Insights.PlaceId | solar_api_mock/core/properties/building_insights.py:34-36 | For a name of the form `buildings/{place_id}`, the extracted place id rebuilds that very name. |
| Insights.ResourceNameRoundTrip | solar_api_mock/core/properties/building_insights.py:34-36 | A built name has the resource form exactly when the place id is not empty, and then the place id reads back unchanged. |
| Financial.DefaultBillCount | solar_api_mock/core/properties/financial_analysis.py:138-141 | The number of analyses marked as the default bill is at most their number, and is zero exactly when none is marked. |
| Financial.SingleDefaultBill | solar_api_mock/core/properties/financial_analysis.py:138-141 | One analysis marked as default bill and no other gives exactly one default bill (the documented rule). |
| Financial.DefaultBillPosition | solar_api_mock/core/properties/financial_analysis.py:138-141 | Conversely, exactly one default bill means there is a position holding it and no other position does. |
| Solar.ParseOrientation | solar_api_mock/core/properties/solar_potential.py:79-83 | The orientation literal accepts exactly its listed names, and an accepted value is the name of the orientation it returns. |
| Solar.OrientationRoundTrip | solar_api_mock/core/properties/solar_potential.py:79-83 | Writing an orientation as its name and reading it back gives the same orientation. |
| Solar.QuantileLevel | solar_api_mock/core/properties/solar_potential.py:18-20 | With N values the i-th is the i/(N-1) quantile: a level in [0, 1] that is 0 exactly for the first value and 1 exactly for the last. |
| Solar.FiveQuantilesAreQuartiles | solar_api_mock/core/properties/solar_potential.py:18-20 | The documented example: five values are the minimum, the quartiles 25%, 50%, 75% and the maximum. |
| Solar.QuantileExtremes | solar_api_mock/core/properties/solar_potential.py:18-20 | In ordered quantiles every value lies between the first (minimum) and the last (maximum). |
| Solar.SumPanelsCountAppend | solar_api_mock/core/properties/solar_potential.py:102-104 | The panel total over the segment summaries of two lists joined is the sum of the totals. |
| Solar.SegmentCountsWithinTotal | solar_api_mock/core/properties/solar_potential.py:102-104 | When no segment reports a negative count, each segment's panel count lies between 0 and the layout total. |
| Solar.SumIsNonNegative | solar_api_mock/core/properties/solar_potential.py:102-104 | When no segment reports a negative count, the layout total is non-negative. |
| Solar.FourPanelsFromFirst | solar_api_mock/core/properties/solar_potential.py:135-137 | For layouts listed in increasing panel count, every layout holds at least 4 panels exactly when there is none or the first one does. |
| Json.Within | solar_api_mock/core/properties/common.py:6-24 | An error raised inside a field is reported with that field prepended to its location; success passes through unchanged. |
| Json.AsFloat | solar_api_mock/core/properties/common.py:15-19 | A `float` field accepts exactly a JSON number, whether written with or without a fraction, and keeps its value. |
| Json.AsInt | solar_api_mock/core/properties/common.py:69-73 | An `int` field accepts exactly a number with no fractional part, and keeps its value. |
| Json.AsStr | solar_api_mock/core/properties/common.py:52-57 | A `str` field accepts exactly a JSON string, and keeps its value. |
| Json.AsBool | solar_api_mock/core/properties/financial_analysis.py:29-31 | A `bool` field accepts exactly a JSON boolean, and keeps its value. |
| Json.AsFloatIn | solar_api_mock/core/properties/common.py:15-24 | A `float` field with `ge`/`le` accepts exactly a number within both bounds, and keeps its value. |
| Json.AsIntIn | solar_api_mock/core/properties/common.py:41-51 | An `int` field with `ge`/`le` accepts exactly an integral number within both bounds, and keeps its value. |
| Json.AsRecord | solar_api_mock/core/properties/common.py:27-35 | A field whose type is a record accepts only an object and then constructs the record from its keys. |
| Json.ParseItemsFrom | solar_api_mock/core/properties/data_layers.py:47-49 | Reading the items of a list from position i succeeds exactly when each remaining item reads, and gives one element per item, in order. |
| Json.AsList | solar_api_mock/core/properties/data_layers.py:47-49 | A `list[...]` field accepts exactly an array whose every item reads as the element type, and gives one element per item, in order. |
| Json.ListRoundTrip | solar_api_mock/core/properties/data_layers.py:47-49 | An array whose item i reads as element i reads back as the whole list. |
| Json.AsFloats | solar_api_mock/core/properties/solar_potential.py:18-20 | A `list[float]` field accepts exactly an array of numbers, and keeps them in order. |
| Json.AsStrs | solar_api_mock/core/properties/data_layers.py:47-49 | A `list[str]` field accepts exactly an array of strings, and keeps them in order. |
| Json.Required | solar_api_mock/core/properties/common.py:52-54 | A field without a default that is absent is reported missing at that field; a present one is read, any error being reported at that field. |
| Json.Optional | solar_api_mock/core/properties/common.py:41-51 | A `default=None` field that is absent gives `None`; a present one (an explicit `null` included) must read as the field type. |
| Json.Floats | solar_api_mock/core/properties/solar_potential.py:18-20 | A list of floats serialises to an array of the same length holding no `null`. |
| Json.Strs | solar_api_mock/core/properties/data_layers.py:47-49 | A list of strings serialises to an array of the same length holding no `null`. |
| Json.FloatsRoundTrip | solar_api_mock/core/properties/solar_potential.py:18-20 | A serialised list of floats reads back as the same list. |
| Json.StrsRoundTrip | solar_api_mock/core/properties/data_layers.py:47-49 | A serialised list of strings reads back as the same list. |
| Fixtures.FirstSegmentBoxDropsExtras | solar_api_mock/core/schema.py:151-164 | The first segment's bounding box is passed two keys its class does not declare (`imageryProcessedDate`, `imageryQuality`): construction ignores them and the box serialises with only `ne` and `sw`. |
| Fixtures.BuildingInsightsFixtureValid | solar_api_mock/core/schema.py:65-260 | The building-insights fixture keeps every declared field bound and reads back unchanged from its serialisation. |
| Fixtures.FixtureNameIsResourceName | solar_api_mock/core/schema.py:66 | The fixture's name has the form `buildings/{place_id}`. |
| Fixtures.FixtureLayoutsKeepDocumentedRules | solar_api_mock/core/schema.py:201-228 | The fixture's layouts are in increasing panel count, each holds at least 4 panels, and each total equals the sum over its segments. |
| Fixtures.FixtureSegmentIndexesInRange | solar_api_mock/core/schema.py:97-228 | Every segment index of the fixture's layouts and panels points into its roof segments. |
| Fixtures.FixtureAnalysesKeepDocumentedRules | solar_api_mock/core/schema.py:229-244 | Both analyses of the fixture keep the layout rule: each names no layout (index -1) and so carries no sub-analyses. They are in increasing bill order. |
| Fixtures.FixtureQuantilesOrdered | solar_api_mock/core/schema.py:115-131 | The whole-roof quantiles are listed from smallest to largest. |
| Fixtures.BuildingInsightsFixtureBreaksDocumentedRules | solar_api_mock/core/schema.py:97-244 | The fixture breaks two documented rules: layouts of 4 and 5 panels cannot be the first N of its 2 listed panels, and no analysis is marked as the default bill, so not exactly one is. |
| Fixtures.DataLayersFixtureValid | solar_api_mock/core/schema.py:267-293 | The data-layers fixture keeps its field bounds and has twelve hourly-shade URLs, one per month. |
| Fixtures.DataLayersFixtureConstructs | solar_api_mock/core/schema.py:267-293 | The data-layers fixture reads back unchanged from its serialisation. |
| Schema.Lookup | solar_api_mock/core/schema.py:8-28 | The registry lookup finds a schema exactly when `name` is one of the registered names, and the schema found is registered under that name. |
| Schema.ClassOfSchema | solar_api_mock/core/schema.py:44 | Every registered schema has a properties class named `{name}Properties` except `HttpBody`, for which the lookup fails. |
| Schema.CallBuildingInsights | solar_api_mock/core/schema.py:44-46 | Unfolds the building-insights arm of `Constructor`: calling `BuildingInsightsProperties` is `ParseBuildingInsights` with its result wrapped as a schema record. |
| Schema.CallDataLayers | solar_api_mock/core/schema.py:44-46 | Unfolds the data-layers arm of `Constructor`: calling `DataLayersProperties` is `ParseDataLayers` with its result wrapped as a schema record. |
| Schema.CallMoney | solar_api_mock/core/schema.py:44-46 | Unfolds the money arm of `Constructor`: calling `MoneyProperties` is `ParseMoney` with its result wrapped as a schema record. |
| Schema.Dump | solar_api_mock/core/schema.py:31-34 | The serialisation of a record of any class is a JSON object. |
| Schema.SchemaBuilder.constructor | solar_api_mock/core/schema.py:38-41 | A builder holds the record behaviour and the schema it was made for. |
| Schema.SchemaBuilder.Create | solar_api_mock/core/schema.py:38-41 | Creating a builder succeeds exactly when the name is registered, and then the builder is bound to that schema; otherwise it fails with schema-not-found for that name. |
| Schema.SchemaBuilder.ConstructModel | solar_api_mock/core/schema.py:43-55 | For `HttpBody` the class lookup fails; the base builder returns no record, which `SchemaModel` refuses at `properties`; otherwise construction errors are passed on, and a constructed record is returned with the schema's name and description. |
| Schema.NewBuildingInsightsBuilder | solar_api_mock/core/schema.py:58-60 | `BuildingInsightsBuilder()` is a new builder for the `BuildingInsights` schema that builds from the fixture's arguments. |
| Schema.NewDataLayersBuilder | solar_api_mock/core/schema.py:263-265 | `DataLayersBuilder()` is a new builder for the `DataLayers` schema that builds from the fixture's arguments. |
| Schema.BuildingInsightsModel | solar_api_mock/core/schema.py:58-260 | The building-insights builder constructs the `BuildingInsights` schema model whose properties are the fixture. |
| Schema.DataLayersModel | solar_api_mock/core/schema.py:263-293 | The data-layers builder constructs the `DataLayers` schema model whose properties are the fixture. |
| Schema.MismatchedBuilderFails | solar_api_mock/core/schema.py:43-52 | A building-insights builder created under the name `Money` feeds the building's fields to `MoneyProperties`, which refuses them as missing `units`. |
| Schema.MoneyRefusesBuildingInsights | solar_api_mock/core/schema.py:43-52 | The serialisation of any building lacks `units`, so it never constructs a `Money`. |
| Endpoints.DumpsBuildingInsights | solar_api_mock/core/main.py:15 | Serialising a building-insights record held as a schema property is the same as serialising the record itself. |
| Endpoints.DumpsDataLayers | solar_api_mock/core/main.py:37 | Serialising a data-layers record held as a schema property is the same as serialising the record itself. |
| Endpoints.GetBuildingInsights | solar_api_mock/core/main.py:7-15 | Whatever the position and quality asked for, the answer is the building-insights fixture serialised with its unset fields dropped. |
| Endpoints.GetDataLayers | solar_api_mock/core/main.py:18-37 | Whatever arguments are passed, the answer is the data-layers fixture serialised with its unset fields dropped. |
| RouteTests.WholeRoofStatsAsExpected | tests/test_core_routes.py:21-37 | The served whole-roof statistics equal the expected ones. |
| RouteTests.RoofSegmentStatsAsExpected | tests/test_core_routes.py:38-103 | The served roof-segment statistics equal the expected ones. |
| RouteTests.SolarPanelConfigsAsExpected | tests/test_core_routes.py:104-131 | The served panel layouts equal the expected ones. |
| RouteTests.FinancialAnalysesAsExpected | tests/test_core_routes.py:132-147 | The served financial analyses, without the unset default-bill flag, equal the expected ones. |
| RouteTests.BuildingStatsAsExpected | tests/test_core_routes.py:148-164 | The served building statistics equal the expected ones. |
| RouteTests.SolarPanelsAsExpected | tests/test_core_routes.py:165-181 | The served panels equal the expected ones. |
| RouteTests.SolarPotentialAsExpected | tests/test_core_routes.py:16-182 | The served solar potential equals the expected one. |
| RouteTests.BuildingInsightsAsExpected | tests/test_core_routes.py:8-189 | The served building insights equal the expected dictionary. |
| RouteTests.TestGetBuildingInsightsDefault | tests/test_core_routes.py:6-191 | `get_building_insights({"lat": 0, "lon": 0})` answers the expected dictionary. |
| RouteTests.FirstHalfShadeUrlsAsExpected | tests/test_core_routes.py:204-216 | The hourly-shade URLs of January to June are the expected ones. |
| RouteTests.SecondHalfShadeUrlsAsExpected | tests/test_core_routes.py:204-216 | The hourly-shade URLs of July to December are the expected ones. |
| RouteTests.HourlyShadeUrlsAsExpected | tests/test_core_routes.py:204-216 | The twelve served hourly-shade URLs are the expected list, in order. |
| RouteTests.DataLayersAsExpected | tests/test_core_routes.py:196-219 | The served data layers equal the expected dictionary. |
| RouteTests.TestGetDataLayersDefault | tests/test_core_routes.py:194-221 | `get_data_layers({"lat": 0, "lon": 0}, 1000)` answers the expected dictionary. |
| Params.ParseView | solar_api_mock/core/properties/request_params.py:67-76 | The view literal accepts exactly its six names, and an accepted value is the name of the view it returns. |
| Params.ViewRoundTrip | solar_api_mock/core/properties/request_params.py:67-76 | Writing a view as its name and reading it back gives the same view. |
| Params.GetAttribute | solar_api_mock/core/properties/request_params.py:21 | Reading an attribute succeeds exactly when the name is an attribute of the object, and gives its value; otherwise it raises a read error naming it. |
| Params.SetAttribute | solar_api_mock/core/properties/request_params.py:22 | Assigning an attribute succeeds exactly when the name is an attribute of the object; that attribute takes the value, no other changes and none is added. Otherwise it raises an assignment error naming it. |
| Params.FillFailure | solar_api_mock/core/properties/request_params.py:19-24 | Assigning an undeclared attribute in the validator surfaces as a validation error; reading one surfaces as a missing attribute of that name. |
| Params.ParseBuildingInsightsQuery | solar_api_mock/core/properties/request_params.py:8-17 | The building-insights query is accepted exactly when `lat_lon` is present and a valid position and `required_quality`, if present, is a quality name; the fields then hold what was passed, an absent quality being unset. |
| Params.FillBuildingInsightsQuery | solar_api_mock/core/properties/request_params.py:19-24 | The intended fill: the position is kept and the quality is always set, to the one asked for or else to `HIGH`. |
| Params.BuildingInsightsAttributes | solar_api_mock/core/properties/request_params.py:8-17 | The attributes of a building-insights object are exactly its two declared fields. |
| Params.FillBuildingInsightsAttributes | solar_api_mock/core/properties/request_params.py:19-24 | The fill on the attributes fails exactly when `required_quality` is not an attribute, or it is unset and the assignment target is not one; a failure names a non-attribute, and success adds no attribute. |
| Params.QualityFillAsWritten | solar_api_mock/core/properties/request_params.py:19-24 | `requiredQuality` is not a declared field, so the fill as written fails with an assignment error on it exactly when no quality was passed, and otherwise changes nothing. |
| Params.QualityFillAsIntended | solar_api_mock/core/properties/request_params.py:19-24 | Assigning `required_quality` instead, the fill on the attributes gives the attributes of the intended fill. |
| Params.BuildingInsightsParams.constructor | solar_api_mock/core/properties/request_params.py:8-17 | A new parameter object holds the query it was built from. |
| Params.BuildingInsightsParams.FillOptionalValuesAsWritten | solar_api_mock/core/properties/request_params.py:19-24 | The validator as written, on the object's own fields, returns the error of the as-written fill when it fails, none when it succeeds, and then that fill changes nothing. |
| Params.BuildingInsightsParams.FillOptionalValues | solar_api_mock/core/properties/request_params.py:19-24 | The corrected validator leaves the object holding the filled query. |
| Params.NewBuildingInsightsParamsAsWritten | solar_api_mock/core/properties/request_params.py:8-24 | Construction as written passes on a query error, fails with the as-written fill's error when that fill fails, and otherwise returns a new object whose attributes are the fill's result. |
| Params.NewBuildingInsightsParams | solar_api_mock/core/properties/request_params.py:8-24 | Corrected construction succeeds exactly when the query is accepted, and the new object holds the filled query. |
| Params.OmittedQualityFailsAsWritten | solar_api_mock/core/properties/request_params.py:19-24 | As written, a request with a valid position and no quality is accepted by field validation and then refused by the validator with a value error. |
| Params.OmittedQualityIsHigh | solar_api_mock/core/properties/request_params.py:12-24 | Corrected, leaving out the quality is accepted exactly when passing `HIGH` is, and fills to the same parameters. |
| Params.BuildingInsightsFillIdempotent | solar_api_mock/core/properties/request_params.py:19-24 | Filling twice is filling once, and a quality that was passed is kept. |
| Params.ParseDataLayersQuery | solar_api_mock/core/properties/request_params.py:61-90 | The data-layers query is accepted exactly when `location` is a valid position, `radius_meter` an integer, and each optional field, if present, has its declared type; the fields then hold what was passed, absent ones being unset. |
| Params.FillDataLayersQuery | solar_api_mock/core/properties/request_params.py:92-103 | The intended fill keeps position, radius and view, and sets an unset quality to `HIGH`, an unset pixel size to 0.1 and an unset exact-quality flag to false, keeping values that were passed. |
| Params.DataLayersAttributes | solar_api_mock/core/properties/request_params.py:61-90 | The attributes of a data-layers object are exactly its six declared fields. |
| Params.FillAttribute | solar_api_mock/core/properties/request_params.py:94-101 | One fill step fails exactly when the name is not an attribute, with a read error on it; otherwise the attribute is set to the default if it was unset and nothing else changes. |
| Params.FillDataLayersAttributes | solar_api_mock/core/properties/request_params.py:92-103 | The fill on the attributes adds no attribute and fails only on a non-attribute; when quality and flag are attributes it fails exactly when the pixel-size name is not one, with a read error on it. |
| Params.PixelSizeFillAsWritten | solar_api_mock/core/properties/request_params.py:97-98 | `pixel_size_meters` is not a declared field, so the fill as written fails on reading it, whatever the request. |
| Params.PixelSizeFillAsIntended | solar_api_mock/core/properties/request_params.py:92-103 | Under the declared name `pixel_size_numbers`, the fill on the attributes gives the attributes of the intended fill. |
| Params.DataLayersParams.constructor | solar_api_mock/core/properties/request_params.py:27-90 | A new parameter object holds the query it was built from. |
| Params.DataLayersParams.FillOptionalValuesAsWritten | solar_api_mock/core/properties/request_params.py:92-103 | The validator as written sets an unset quality to `HIGH` in place and returns the error of the as-written fill, the failed read of `pixel_size_meters`. |
| Params.DataLayersParams.FillOptionalValues | solar_api_mock/core/properties/request_params.py:92-103 | The corrected validator leaves the object holding the filled query. |
| Params.NewDataLayersParamsAsWritten | solar_api_mock/core/properties/request_params.py:27-103 | Construction as written never succeeds: a query error is passed on, and any accepted query fails on `pixel_size_meters`. |
| Params.NewDataLayersParams | solar_api_mock/core/properties/request_params.py:27-103 | Corrected construction succeeds exactly when the query is accepted, and the new object holds the filled query. |
| Params.DataLayersFillIdempotent | solar_api_mock/core/properties/request_params.py:92-103 | Filling twice is filling once, and every value that was passed is kept. |
| Params.OmittedDefaultsAreExplicit | solar_api_mock/core/properties/request_params.py:77-103 | Corrected, leaving out quality and pixel size is accepted exactly when passing `HIGH` and 0.1 is, and fills to the same parameters. |
| Params.RadiusBounds | solar_api_mock/core/properties/request_params.py:30-58 | A request keeping the documented limits asks for at most 1000 m, and at most 100 m at the default pixel size. |
| Params.SmallRadiusAllowed | solar_api_mock/core/properties/request_params.py:30-58 | Any radius up to 100 m keeps the limits with a supported pixel size, whatever the view. |
| Params.TestRequestBreaksLimits | solar_api_mock/core/properties/request_params.py:30-58 | The route test's request, radius 1000 m at the default pixel size 0.1, breaks the documented limits. |

## Left out

- HTTP routing, FastAPI query binding and response models (`web/app.py`) are left out: they are transport plumbing, and their parameter classes repeat `request_params.py` with other defaults.
- The flat `properties.py` module is not part of this model. It is a stale duplicate that the `properties` package shadows. The missing `HttpBodyProperties` class in the live package appears only as the failed class lookup for `HttpBody`.
- The JSON text of `model_dump_json` is left out. It covers key order, whitespace and float rendering. Serialisation is modelled into a JSON tree, which is what the route tests compare after `json.loads`.
- Floats are modelled as `real`. No arithmetic is done on them, and they are only stored and compared with literal bounds. As a result, 400 and 400.0 are the same number, as in Python's comparison.
- The pixel size is a `real` in the radius rule (0.1, 0.25, 0.5, 1.0 and the product with 1000). It is not kept as integer millimetres, since the values are exact reals.
- Pydantic's lax mode is left out. This is the coercion of numeric strings to numbers, of `1`/`0` to booleans, and so on. Construction accepts only values of the declared JSON kind, and an `int` field accepts any integral number.
- Keys other than the declared field names are modelled by one `Key.Other(text)` case. Construction ignores them, as pydantic does, but they are not otherwise distinguished.
- The schema descriptions are kept only as their first sentence, and field descriptions are not kept. Both are documentation payload with no behaviour.
- `base.py` is not part of this model. `SchemaProperties` is taken to be an empty base record, and it becomes the sum type `Schema.SchemaProperties`.
- A nested record passed to a class by the builders is represented by its serialisation. The builders pass instances of the declared class, which pydantic keeps as they are; the `...RoundTrip` lemmas show that reading the serialisation back gives the same record, so nothing is lost.
- `ValidationError` keeps one error: the first failing field in declaration order. Pydantic collects every failing field into its error list; the model does not keep the rest of that list.
- The expected route-test trees are written with their keys in serialiser order and with the common URL prefix factored out. Both give the same dictionaries as the test text.
- The percentage ranges of `FinancialDetails` and the payback rule of `CashPurchaseSavings` are stated as predicates only. The fixture has no financial details to check them against.
- `Solar.ParseStats`, `Solar.ParseSummary`, `Solar.ParseConfig`: their classes declare no bounds, so these ensures state only the refused non-object.
- `Endpoints.GetBuildingInsights`, `Endpoints.GetDataLayers`: the declared parameter types of `main.py` are not checked, because Python does not check annotations on a plain call.

## Findings

| source | as written | input that shows it | evidently intended | confidence | as-written member | corrected member |
|---|---|---|---|---|---|---|
| solar_api_mock/core/properties/request_params.py:22 | the validator assigns `self.requiredQuality`, an attribute the model does not declare; pydantic refuses the assignment, so every request without `required_quality` fails | `BuildingInsightsParams(lat_lon=LatLng(0, 0))` | an absent `required_quality` becomes `HIGH` | not executed | Params.OmittedQualityFailsAsWritten | Params.OmittedQualityIsHigh |
| solar_api_mock/core/properties/request_params.py:97-98 | the validator reads `self.pixel_size_meters`, but the declared field is `pixel_size_numbers`; the lookup raises, so no `DataLayersParams` can be constructed | `DataLayersParams(location=LatLng(0, 0), radius_meter=50)` | an absent pixel size becomes 0.1 | not executed | Params.NewDataLayersParamsAsWritten | Params.OmittedDefaultsAreExplicit |
