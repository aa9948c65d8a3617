/** The record of solar_api_mock/core/properties/data_layers.py: the URLs of the
    raster layers of a region, the imagery dates and quality, and the
    documented way of reading the hourly-shade rasters. */
module Layers {
  import opened Wrappers
  import opened Json
  import opened Common

  datatype DataLayers = DataLayers(
    annualFluxUrl: string,
    maskUrl: string,
    imageryQuality: ImageryQuality,
    monthlyFluxUrl: string,
    imageryDate: Date,
    rgbUrl: string,
    dsmUrl: string,
    hourlyShadeUrls: seq<string>,
    imageryProcessedDate: Option<Date>)
  {
    predicate Valid() {
      imageryDate.Valid() && (imageryProcessedDate.Some? ==> imageryProcessedDate.value.Valid())
    }

    /** Documented, not checked: one hourly-shade URL per month, January to December. */
    predicate TwelveShadeUrls() {
      |hourlyShadeUrls| == 12
    }
  }

  /** The fields of `DataLayers` that have no default. */
  const DataLayersFields: set<Key> := {Key.annualFluxUrl, Key.maskUrl, Key.imageryQuality, Key.monthlyFluxUrl, Key.imageryDate, Key.rgbUrl, Key.dsmUrl, Key.hourlyShadeUrls}
  /** The fields of `DataLayers` that default to unset. */
  const DataLayersOptionalFields: set<Key> := {Key.imageryProcessedDate}

  /** Construction of a `DataLayers` from keyword arguments: every declared field in
      declaration order, the first failure reported at its field. */
  function ParseDataLayers(v: Value): (r: Parsed<DataLayers>)
    ensures !v.Obj? ==> r == Err(ValidationError([], ModelType))
    ensures r.Ok? ==> r.value.Valid()
  {
    if !v.Obj? then Fail(ModelType)
    else
      var m := v.fields;
      var annualFluxUrl :- Required(m, Key.annualFluxUrl, AsStr);
      var maskUrl :- Required(m, Key.maskUrl, AsStr);
      var imageryQuality :- Required(m, Key.imageryQuality, ParseQuality);
      var monthlyFluxUrl :- Required(m, Key.monthlyFluxUrl, AsStr);
      var imageryDate :- Required(m, Key.imageryDate, ParseDate);
      var rgbUrl :- Required(m, Key.rgbUrl, AsStr);
      var dsmUrl :- Required(m, Key.dsmUrl, AsStr);
      var hourlyShadeUrls :- Required(m, Key.hourlyShadeUrls, AsStrs);
      var imageryProcessedDate :- Optional(m, Key.imageryProcessedDate, ParseDate);
      Ok(DataLayers(annualFluxUrl, maskUrl, imageryQuality, monthlyFluxUrl, imageryDate, rgbUrl, dsmUrl, hourlyShadeUrls, imageryProcessedDate))
  }

  /** The keyword arguments `m` construct exactly `x`: each field without a default is
      present and reads as `x`'s value, each defaulted field is absent when `x` leaves it unset,
      and any other key is ignored. */
  predicate DataLayersAccepts(m: map<Key, Value>, x: DataLayers) {
    Key.annualFluxUrl in m && AsStr(m[Key.annualFluxUrl]) == Ok(x.annualFluxUrl)
    && Key.maskUrl in m && AsStr(m[Key.maskUrl]) == Ok(x.maskUrl)
    && Key.imageryQuality in m && ParseQuality(m[Key.imageryQuality]) == Ok(x.imageryQuality)
    && Key.monthlyFluxUrl in m && AsStr(m[Key.monthlyFluxUrl]) == Ok(x.monthlyFluxUrl)
    && Key.imageryDate in m && ParseDate(m[Key.imageryDate]) == Ok(x.imageryDate)
    && Key.rgbUrl in m && AsStr(m[Key.rgbUrl]) == Ok(x.rgbUrl)
    && Key.dsmUrl in m && AsStr(m[Key.dsmUrl]) == Ok(x.dsmUrl)
    && Key.hourlyShadeUrls in m && AsStrs(m[Key.hourlyShadeUrls]) == Ok(x.hourlyShadeUrls)
    && (if x.imageryProcessedDate.Some? then Key.imageryProcessedDate in m && ParseDate(m[Key.imageryProcessedDate]) == Ok(x.imageryProcessedDate.value) else Key.imageryProcessedDate !in m)
  }

  lemma DataLayersFromAccepted(m: map<Key, Value>, x: DataLayers)
    requires DataLayersAccepts(m, x)
    ensures ParseDataLayers(Obj(m)) == Ok(x)
  {
  }

  lemma DataLayersAcceptedFrom(v: Value)
    requires ParseDataLayers(v).Ok?
    ensures v.Obj? && DataLayersAccepts(v.fields, ParseDataLayers(v).value)
  {
  }

  /** The object of already-serialised field values. */
  function DataLayersObject(annualFluxUrl: Value, maskUrl: Value, imageryQuality: Value, monthlyFluxUrl: Value, imageryDate: Value, rgbUrl: Value, dsmUrl: Value, hourlyShadeUrls: Value, imageryProcessedDate: Option<Value>, excludeNone: bool): map<Key, Value> {
    PutOptional(map[Key.annualFluxUrl := annualFluxUrl, Key.maskUrl := maskUrl, Key.imageryQuality := imageryQuality, Key.monthlyFluxUrl := monthlyFluxUrl, Key.imageryDate := imageryDate, Key.rgbUrl := rgbUrl, Key.dsmUrl := dsmUrl, Key.hourlyShadeUrls := hourlyShadeUrls], Key.imageryProcessedDate, imageryProcessedDate, excludeNone)
  }

  lemma DataLayersObjectFields(annualFluxUrl: Value, maskUrl: Value, imageryQuality: Value, monthlyFluxUrl: Value, imageryDate: Value, rgbUrl: Value, dsmUrl: Value, hourlyShadeUrls: Value, imageryProcessedDate: Option<Value>, excludeNone: bool)
    ensures var m := DataLayersObject(annualFluxUrl, maskUrl, imageryQuality, monthlyFluxUrl, imageryDate, rgbUrl, dsmUrl, hourlyShadeUrls, imageryProcessedDate, excludeNone);
      Key.annualFluxUrl in m && m[Key.annualFluxUrl] == annualFluxUrl
      && Key.maskUrl in m && m[Key.maskUrl] == maskUrl
      && Key.imageryQuality in m && m[Key.imageryQuality] == imageryQuality
      && Key.monthlyFluxUrl in m && m[Key.monthlyFluxUrl] == monthlyFluxUrl
      && Key.imageryDate in m && m[Key.imageryDate] == imageryDate
      && Key.rgbUrl in m && m[Key.rgbUrl] == rgbUrl
      && Key.dsmUrl in m && m[Key.dsmUrl] == dsmUrl
      && Key.hourlyShadeUrls in m && m[Key.hourlyShadeUrls] == hourlyShadeUrls
      && (Key.imageryProcessedDate in m <==> imageryProcessedDate.Some? || !excludeNone)
      && (imageryProcessedDate.Some? ==> m[Key.imageryProcessedDate] == imageryProcessedDate.value)
      && (imageryProcessedDate.None? && !excludeNone ==> m[Key.imageryProcessedDate] == Null)
  {
  }

  lemma DataLayersObjectKeys(annualFluxUrl: Value, maskUrl: Value, imageryQuality: Value, monthlyFluxUrl: Value, imageryDate: Value, rgbUrl: Value, dsmUrl: Value, hourlyShadeUrls: Value, imageryProcessedDate: Option<Value>, excludeNone: bool)
    ensures DataLayersObject(annualFluxUrl, maskUrl, imageryQuality, monthlyFluxUrl, imageryDate, rgbUrl, dsmUrl, hourlyShadeUrls, imageryProcessedDate, excludeNone).Keys == DataLayersFields + (if imageryProcessedDate.Some? || !excludeNone then {Key.imageryProcessedDate} else {})
  {
  }

  lemma DataLayersObjectNoNulls(annualFluxUrl: Value, maskUrl: Value, imageryQuality: Value, monthlyFluxUrl: Value, imageryDate: Value, rgbUrl: Value, dsmUrl: Value, hourlyShadeUrls: Value, imageryProcessedDate: Option<Value>, excludeNone: bool)
    requires excludeNone && NoNulls(annualFluxUrl) && NoNulls(maskUrl) && NoNulls(imageryQuality) && NoNulls(monthlyFluxUrl) && NoNulls(imageryDate) && NoNulls(rgbUrl) && NoNulls(dsmUrl) && NoNulls(hourlyShadeUrls) && (imageryProcessedDate.Some? ==> NoNulls(imageryProcessedDate.value))
    ensures NoNulls(Obj(DataLayersObject(annualFluxUrl, maskUrl, imageryQuality, monthlyFluxUrl, imageryDate, rgbUrl, dsmUrl, hourlyShadeUrls, imageryProcessedDate, excludeNone)))
  {
    var m0: map<Key, Value> := map[];
    NoNullsPut(m0, Key.annualFluxUrl, annualFluxUrl);
    var m1 := m0[Key.annualFluxUrl := annualFluxUrl];
    NoNullsPut(m1, Key.maskUrl, maskUrl);
    var m2 := m1[Key.maskUrl := maskUrl];
    NoNullsPut(m2, Key.imageryQuality, imageryQuality);
    var m3 := m2[Key.imageryQuality := imageryQuality];
    NoNullsPut(m3, Key.monthlyFluxUrl, monthlyFluxUrl);
    var m4 := m3[Key.monthlyFluxUrl := monthlyFluxUrl];
    NoNullsPut(m4, Key.imageryDate, imageryDate);
    var m5 := m4[Key.imageryDate := imageryDate];
    NoNullsPut(m5, Key.rgbUrl, rgbUrl);
    var m6 := m5[Key.rgbUrl := rgbUrl];
    NoNullsPut(m6, Key.dsmUrl, dsmUrl);
    var m7 := m6[Key.dsmUrl := dsmUrl];
    NoNullsPut(m7, Key.hourlyShadeUrls, hourlyShadeUrls);
    var m8 := m7[Key.hourlyShadeUrls := hourlyShadeUrls];
    NoNullsPutOptional(m8, Key.imageryProcessedDate, imageryProcessedDate);
    var m9 := PutOptional(m8, Key.imageryProcessedDate, imageryProcessedDate, true);
  }

  /** An object whose serialised field values read back as `x`'s fields constructs `x`. */
  lemma DataLayersFromObject(x: DataLayers, annualFluxUrl: Value, maskUrl: Value, imageryQuality: Value, monthlyFluxUrl: Value, imageryDate: Value, rgbUrl: Value, dsmUrl: Value, hourlyShadeUrls: Value, imageryProcessedDate: Option<Value>)
    requires AsStr(annualFluxUrl) == Ok(x.annualFluxUrl)
      && AsStr(maskUrl) == Ok(x.maskUrl)
      && ParseQuality(imageryQuality) == Ok(x.imageryQuality)
      && AsStr(monthlyFluxUrl) == Ok(x.monthlyFluxUrl)
      && ParseDate(imageryDate) == Ok(x.imageryDate)
      && AsStr(rgbUrl) == Ok(x.rgbUrl)
      && AsStr(dsmUrl) == Ok(x.dsmUrl)
      && AsStrs(hourlyShadeUrls) == Ok(x.hourlyShadeUrls)
      && (if x.imageryProcessedDate.Some? then imageryProcessedDate.Some? && ParseDate(imageryProcessedDate.value) == Ok(x.imageryProcessedDate.value) else imageryProcessedDate.None?)
    ensures ParseDataLayers(Obj(DataLayersObject(annualFluxUrl, maskUrl, imageryQuality, monthlyFluxUrl, imageryDate, rgbUrl, dsmUrl, hourlyShadeUrls, imageryProcessedDate, true))) == Ok(x)
  {
    DataLayersObjectFields(annualFluxUrl, maskUrl, imageryQuality, monthlyFluxUrl, imageryDate, rgbUrl, dsmUrl, hourlyShadeUrls, imageryProcessedDate, true);
    DataLayersFromAccepted(DataLayersObject(annualFluxUrl, maskUrl, imageryQuality, monthlyFluxUrl, imageryDate, rgbUrl, dsmUrl, hourlyShadeUrls, imageryProcessedDate, true), x);
  }

  /** Serialisation of a `DataLayers`; an unset field is dropped when `excludeNone` holds and written as `null` otherwise. */
  function DumpDataLayers(x: DataLayers, excludeNone: bool): (r: Value)
    ensures r.Obj?
  {
    Obj(DataLayersObject(Str(x.annualFluxUrl), Str(x.maskUrl), Str(QualityName(x.imageryQuality)), Str(x.monthlyFluxUrl), DumpDate(x.imageryDate), Str(x.rgbUrl), Str(x.dsmUrl), Strs(x.hourlyShadeUrls), if x.imageryProcessedDate.Some? then Some(DumpDate(x.imageryProcessedDate.value)) else None, excludeNone))
  }

  /** The serialised object has exactly the declared keys, minus the unset ones when they are dropped. */
  lemma DumpDataLayersKeys(x: DataLayers, excludeNone: bool)
    ensures DumpDataLayers(x, excludeNone).fields.Keys == DataLayersFields + (if x.imageryProcessedDate.Some? || !excludeNone then {Key.imageryProcessedDate} else {})
  {
    DataLayersObjectKeys(Str(x.annualFluxUrl), Str(x.maskUrl), Str(QualityName(x.imageryQuality)), Str(x.monthlyFluxUrl), DumpDate(x.imageryDate), Str(x.rgbUrl), Str(x.dsmUrl), Strs(x.hourlyShadeUrls), if x.imageryProcessedDate.Some? then Some(DumpDate(x.imageryProcessedDate.value)) else None, excludeNone);
  }

  /** With unset fields dropped, no `null` appears anywhere in the serialised tree. */
  lemma DumpDataLayersNoNulls(x: DataLayers)
    ensures NoNulls(DumpDataLayers(x, true))
  {
    DumpDateNoNulls(x.imageryDate);
    if x.imageryProcessedDate.Some? { DumpDateNoNulls(x.imageryProcessedDate.value); }
    DataLayersObjectNoNulls(Str(x.annualFluxUrl), Str(x.maskUrl), Str(QualityName(x.imageryQuality)), Str(x.monthlyFluxUrl), DumpDate(x.imageryDate), Str(x.rgbUrl), Str(x.dsmUrl), Strs(x.hourlyShadeUrls), if x.imageryProcessedDate.Some? then Some(DumpDate(x.imageryProcessedDate.value)) else None, true);
  }

  /** Serialising with unset fields dropped and constructing again gives back the same record. */
  lemma DataLayersRoundTrip(x: DataLayers)
    requires x.Valid()
    ensures ParseDataLayers(DumpDataLayers(x, true)) == Ok(x)
  {
    QualityRoundTrip(x.imageryQuality);
    DateRoundTrip(x.imageryDate);
    StrsRoundTrip(x.hourlyShadeUrls);
    assert x.imageryProcessedDate.Some? ==> ParseDate(DumpDate(x.imageryProcessedDate.value)) == Ok(x.imageryProcessedDate.value) by {
      if x.imageryProcessedDate.Some? { DateRoundTrip(x.imageryProcessedDate.value); }
    }
    DataLayersFromObject(x, Str(x.annualFluxUrl), Str(x.maskUrl), Str(QualityName(x.imageryQuality)), Str(x.monthlyFluxUrl), DumpDate(x.imageryDate), Str(x.rgbUrl), Str(x.dsmUrl), Strs(x.hourlyShadeUrls), if x.imageryProcessedDate.Some? then Some(DumpDate(x.imageryProcessedDate.value)) else None);
  }

  // ---- the hourly-shade rasters ------------------------------------------------------

  /** Days per month; February has 28 days, there are no leap days. */
  function DaysInMonth(month: int): (n: int)
    requires 1 <= month <= 12
    ensures 28 <= n <= 31
    ensures n == 28 <==> month == 2
    ensures n == 30 <==> month == 4 || month == 6 || month == 9 || month == 11
  {
    if month == 2 then 28
    else if month == 4 || month == 6 || month == 9 || month == 11 then 30
    else 31
  }

  /** The days of the months before `month`, from January. */
  function DaysBefore(month: int): int
    requires 1 <= month <= 13
  {
    if month == 1 then 0 else DaysBefore(month - 1) + DaysInMonth(month - 1)
  }

  /** The twelve months make a common year of 365 days. */
  lemma DaysInYear()
    ensures DaysBefore(13) == 365
  {
  }

  predicate ValidMoment(month: int, day: int, hour: int) {
    1 <= month <= 12 && 1 <= day <= DaysInMonth(month) && 0 <= hour <= 23
  }

  /** The values of one pixel of the twelve hourly-shade rasters: one 32-bit value per month and hour. */
  predicate ShapedShade(shade: seq<seq<bv32>>) {
    |shade| == 12 && forall i :: 0 <= i < 12 ==> |shade[i]| == 24
  }

  /** The bit of `day` in a 32-bit pixel value. */
  function DayBit(day: int): bv32
    requires 1 <= day <= 32
  {
    (1 as bv32) << (day - 1)
  }

  /** The documented rule: the `month - 1`st raster, band `hour`, bit `day - 1` set means sunny. */
  predicate IsSunny(shade: seq<seq<bv32>>, month: int, day: int, hour: int)
    requires ShapedShade(shade) && ValidMoment(month, day, hour)
  {
    shade[month - 1][hour] & DayBit(day) != 0
  }

  /** The worked example: 4pm on 22 June is the sixth raster, the seventeenth band, bit 21. */
  lemma June22At4pm(shade: seq<seq<bv32>>)
    requires ShapedShade(shade)
    ensures ValidMoment(6, 22, 16)
    ensures IsSunny(shade, 6, 22, 16) <==> shade[5][16] & 0x0020_0000 != 0
  {
    assert DayBit(22) == 0x0020_0000;
  }

  /** A signed value stored in a 32-bit pixel, in two's complement. */
  function ToPixel(x: int): bv32
    requires -0x8000_0000 <= x < 0x8000_0000
  {
    (x % 0x1_0000_0000) as bv32
  }

  const InvalidPixel: int := -9999

  /** The bits a pixel of `month` may have set: one per day of that month. */
  function MonthMask(month: int): bv32
    requires 1 <= month <= 12
  {
    ((1 as bv32) << DaysInMonth(month)) - 1
  }

  /** A pixel value that names only days of the month. */
  predicate ValidPixel(p: bv32, month: int)
    requires 1 <= month <= 12
  {
    p & !MonthMask(month) == 0
  }

  /** The invalid-location value -9999 has bit 31 set. */
  lemma InvalidPixelHasBit31()
    ensures ToPixel(InvalidPixel) & 0x8000_0000 != 0
  {
    assert InvalidPixel % 0x1_0000_0000 == 0xFFFF_D8F1;
    assert ToPixel(InvalidPixel) == 0xFFFF_D8F1 as bv32;
  }

  /** No day of any month is stored in bit 31. */
  lemma NoDayUsesBit31(month: int, day: int)
    requires 1 <= month <= 12 && 1 <= day <= DaysInMonth(month)
    ensures DayBit(day) & 0x8000_0000 == 0
  {
    assert 0 <= day - 1 <= 30;
    ShiftBelowBit31(day - 1);
  }

  lemma ShiftBelowBit31(k: int)
    requires 0 <= k <= 30
    ensures ((1 as bv32) << k) & 0x8000_0000 == 0
  {
    if k <= 15 {
      if k <= 7 {
        if k <= 3 {
          assert k == 0 || k == 1 || k == 2 || k == 3;
        } else {
          assert k == 4 || k == 5 || k == 6 || k == 7;
        }
      } else {
        if k <= 11 {
          assert k == 8 || k == 9 || k == 10 || k == 11;
        } else {
          assert k == 12 || k == 13 || k == 14 || k == 15;
        }
      }
    } else {
      if k <= 23 {
        if k <= 19 {
          assert k == 16 || k == 17 || k == 18 || k == 19;
        } else {
          assert k == 20 || k == 21 || k == 22 || k == 23;
        }
      } else {
        if k <= 27 {
          assert k == 24 || k == 25 || k == 26 || k == 27;
        } else {
          assert k == 28 || k == 29 || k == 30;
        }
      }
    }
  }

  /** The invalid-location value is not a valid pixel of any month, so it cannot be read as real data. */
  lemma InvalidPixelIsNotData(month: int)
    requires 1 <= month <= 12
    ensures !ValidPixel(ToPixel(InvalidPixel), month)
  {
    InvalidPixelHasBit31();
    assert MonthMask(month) & 0x8000_0000 == 0 by {
      assert MonthMask(month) == 0x0FFF_FFFF || MonthMask(month) == 0x3FFF_FFFF || MonthMask(month) == 0x7FFF_FFFF;
    }
  }

  /** A valid pixel reads no sunshine on a day its month does not have (29-31 February, 31 April, ...). */
  lemma NoSunOnMissingDays(p: bv32, month: int, day: int)
    requires 1 <= month <= 12 && DaysInMonth(month) < day <= 31 && ValidPixel(p, month)
    ensures p & DayBit(day) == 0
  {
    DayBitAboveMask(month, day);
    assert p & DayBit(day) == (p & !MonthMask(month)) & DayBit(day);
  }

  lemma DayBitAboveMask(month: int, day: int)
    requires 1 <= month <= 12 && DaysInMonth(month) < day <= 31
    ensures DayBit(day) & MonthMask(month) == 0
  {
    if DaysInMonth(month) == 28 {
      assert day == 29 || day == 30 || day == 31;
    } else {
      assert DaysInMonth(month) == 30 && day == 31;
    }
  }
}
