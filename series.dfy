/**
 * Normalisation of the two upstream payloads and the mapping of energy
 * series to dashboard records (assets/js/api.js).
 */
module Series {
  import opened Wrappers
  import opened JsValues
  import opened Units
  import Rounding
  import Dates
  import Text

  /** A normalised reading: its timestamp and its value, `None` for a null reading. */
  datatype Point = Point(date: string, value: Option<real>)

  /** `{ unit, values }` as `normalizeEnergyValues` returns it. */
  datatype NormalizedSeries = NormalizedSeries(unit: JsValue, values: seq<Point>)

  /** An entry after the `map` step and before the `filter`: its timestamp may be null. */
  datatype MappedItem = MappedItem(date: Option<string>, value: Option<real>)

  datatype NormalizedOverview = NormalizedOverview(
    currentPowerKw: real,
    lastDayEnergyKwh: real,
    lastUpdateTime: JsValue)

  datatype PowerPoint = PowerPoint(timestamp: string, powerKw: real)

  datatype EnergyDay = EnergyDay(date: string, energyKwh: real)

  /** `raw?.key ?? raw ?? {}`: the payload inside its wrapper, or the payload itself. */
  function Unwrap(raw: JsValue, key: string): (r: JsValue)
    ensures !IsNullish(r)
    ensures !IsNullish(Get(raw, key)) ==> r == Get(raw, key)
    ensures IsNullish(Get(raw, key)) && !IsNullish(raw) ==> r == raw
    ensures IsNullish(raw) ==> r == EmptyObject
  {
    Coalesce(Coalesce(Get(raw, key), raw), EmptyObject)
  }

  // ---------------------------------------------------------------- overview

  /**
   * `normalizeOverview`: current power (a bare number or `{ power }`) in kW,
   * the last day's energy in kWh, and the update time or null.
   */
  function NormalizeOverview(rawOverview: JsValue): (r: NormalizedOverview)
    ensures var overview := Unwrap(rawOverview, "overview");
            var power, currentPower := Get(Get(overview, "currentPower"), "power"), Get(overview, "currentPower");
            && (!IsNullish(power) ==> r.currentPowerKw == ToNumber(power, 0.0) / 1000.0)
            && (IsNullish(power) && !IsNullish(currentPower) ==> r.currentPowerKw == ToNumber(currentPower, 0.0) / 1000.0)
            && (IsNullish(currentPower) ==> r.currentPowerKw == 0.0)
    ensures var energy := Get(Get(Unwrap(rawOverview, "overview"), "lastDayData"), "energy");
            && (NumberValue(energy).Some? ==> r.lastDayEnergyKwh == NumberValue(energy).value / 1000.0)
            && (NumberValue(energy).None? ==> r.lastDayEnergyKwh == 0.0)
    ensures var time := Get(Unwrap(rawOverview, "overview"), "lastUpdateTime");
            && (!IsNullish(time) ==> r.lastUpdateTime == time)
            && (IsNullish(time) ==> r.lastUpdateTime == Null)
  {
    var overview := Unwrap(rawOverview, "overview");
    var currentPower := Get(overview, "currentPower");
    NormalizedOverview(
      WToKw(ToNumber(Coalesce(Coalesce(Get(currentPower, "power"), currentPower), Num(0.0)), 0.0)),
      WhToKwh(ToNumber(Coalesce(Get(Get(overview, "lastDayData"), "energy"), Num(0.0)), 0.0)),
      Coalesce(Get(overview, "lastUpdateTime"), Null))
  }

  /** The wrapped `{ overview: {...} }` and the bare object normalise alike. */
  lemma NormalizeOverviewWrapped(inner: map<string, JsValue>)
    requires "overview" !in inner
    ensures NormalizeOverview(Obj(map["overview" := Obj(inner)])) == NormalizeOverview(Obj(inner))
  {
    assert Unwrap(Obj(map["overview" := Obj(inner)]), "overview") == Obj(inner);
    assert Unwrap(Obj(inner), "overview") == Obj(inner);
  }

  /** Whatever else the overview holds, a last day of `e` Wh is `e / 1000` kWh. */
  lemma NormalizeOverviewLastDayEnergy(inner: map<string, JsValue>, day: map<string, JsValue>, e: real)
    requires "overview" !in inner
    ensures NormalizeOverview(Obj(inner["lastDayData" := Obj(day["energy" := Num(e)])])).lastDayEnergyKwh
            == e / 1000.0
  {
    var overview := Obj(inner["lastDayData" := Obj(day["energy" := Num(e)])]);
    assert Unwrap(overview, "overview") == overview;
    assert Get(Get(overview, "lastDayData"), "energy") == Num(e);
  }

  /** Whatever else the overview holds, a current power of `w` W, bare or as `{ power }`, is `w / 1000` kW. */
  lemma NormalizeOverviewCurrentPower(inner: map<string, JsValue>, fields: map<string, JsValue>, w: real)
    requires "overview" !in inner
    ensures NormalizeOverview(Obj(inner["currentPower" := Num(w)])).currentPowerKw == w / 1000.0
    ensures NormalizeOverview(Obj(inner["currentPower" := Obj(fields["power" := Num(w)])])).currentPowerKw
            == w / 1000.0
  {
    var bare := Obj(inner["currentPower" := Num(w)]);
    var nested := Obj(inner["currentPower" := Obj(fields["power" := Num(w)])]);
    assert Unwrap(bare, "overview") == bare;
    assert Get(Get(bare, "currentPower"), "power") == Undefined;
    assert Unwrap(nested, "overview") == nested;
    assert Get(Get(nested, "currentPower"), "power") == Num(w);
  }

  /** Current power given as a bare number or as `{ power }` is the same W reading, in kW. */
  lemma NormalizeOverviewPowerShapes(watts: real)
    ensures NormalizeOverview(Obj(map["currentPower" := Num(watts)])).currentPowerKw == watts / 1000.0
    ensures NormalizeOverview(Obj(map["currentPower" := Obj(map["power" := Num(watts)])])).currentPowerKw
            == watts / 1000.0
  {
  }

  /** A missing overview reads as no power, no energy and a null update time. */
  lemma NormalizeOverviewMissing(raw: JsValue)
    requires raw == Undefined || raw == Null || raw == EmptyObject
    ensures NormalizeOverview(raw) == NormalizedOverview(0.0, 0.0, Null)
  {
    assert Unwrap(raw, "overview") == EmptyObject;
  }

  /** A non-null update time is passed through as it is. */
  lemma NormalizeOverviewUpdateTime(inner: map<string, JsValue>, time: JsValue)
    requires "overview" !in inner && !IsNullish(time)
    ensures NormalizeOverview(Obj(inner["lastUpdateTime" := time])).lastUpdateTime == time
  {
  }

  // ------------------------------------------------------------ energy series

  /** `Array.isArray(energy?.values) ? energy.values : []`. */
  function SeriesItems(energy: JsValue): (items: seq<JsValue>)
    ensures Get(energy, "values").Arr? ==> items == Get(energy, "values").elems
    ensures !Get(energy, "values").Arr? ==> items == []
  {
    var values := Get(energy, "values");
    if values.Arr? then values.elems else []
  }

  /** The `map` callback: normalised date, and null kept as null, anything else through `toNumber`. */
  function NormalizeItem(item: JsValue): (r: MappedItem)
    ensures r.date.Some? ==> 'T' in r.date.value
  {
    var value := Get(item, "value");
    MappedItem(Dates.NormalizeDate(Get(item, "date")),
               if IsNullish(value) then None else Some(ToNumber(value, 0.0)))
  }

  function MapItems(items: seq<JsValue>): (r: seq<MappedItem>)
    ensures |r| == |items|
    ensures forall i :: 0 <= i < |r| ==> r[i] == NormalizeItem(items[i])
  {
    seq(|items|, i requires 0 <= i < |items| => NormalizeItem(items[i]))
  }

  /** The `filter` step: entries whose timestamp is null are dropped, the rest kept in order. */
  function KeepDated(items: seq<MappedItem>): (r: seq<Point>)
    ensures |r| <= |items|
    ensures |r| == |items| <==> forall i :: 0 <= i < |items| ==> items[i].date.Some?
    ensures forall i :: 0 <= i < |r| ==> MappedItem(Some(r[i].date), r[i].value) in items
    ensures forall i :: 0 <= i < |items| && items[i].date.Some? ==>
              Point(items[i].date.value, items[i].value) in r
  {
    if items == [] then []
    else
      var rest := KeepDated(items[1..]);
      assert forall i :: 0 <= i < |rest| ==> MappedItem(Some(rest[i].date), rest[i].value) in items by {
        assert forall m :: m in items[1..] ==> m in items;
      }
      assert forall i :: 1 <= i < |items| ==> items[i] == items[1..][i - 1];
      if items[0].date.Some? then [Point(items[0].date.value, items[0].value)] + rest else rest
  }

  /** Filtering a concatenation filters each part: the order of entries is kept. */
  lemma {:induction false} KeepDatedAppend(a: seq<MappedItem>, b: seq<MappedItem>)
    ensures KeepDated(a + b) == KeepDated(a) + KeepDated(b)
  {
    if a == [] {
      assert a + b == b;
    } else {
      var ab := a + b;
      assert ab[0] == a[0] && ab[1..] == a[1..] + b;
      KeepDatedAppend(a[1..], b);
      var restA, restB := KeepDated(a[1..]), KeepDated(b);
      if a[0].date.Some? {
        var p := Point(a[0].date.value, a[0].value);
        assert KeepDated(ab) == [p] + (restA + restB);
        assert [p] + (restA + restB) == ([p] + restA) + restB;
      } else {
        assert KeepDated(ab) == restA + restB;
      }
    }
  }

  /** When every entry has a timestamp nothing is dropped: the i-th point is the i-th entry. */
  lemma {:induction false} KeepDatedAllDated(items: seq<MappedItem>)
    requires forall i :: 0 <= i < |items| ==> items[i].date.Some?
    ensures |KeepDated(items)| == |items|
    ensures forall i :: 0 <= i < |items| ==>
              KeepDated(items)[i] == Point(items[i].date.value, items[i].value)
  {
    if items != [] {
      KeepDatedAllDated(items[1..]);
    }
  }

  /**
   * `normalizeEnergyValues`: the unit (default "Wh") and the entries with a
   * usable timestamp, in their original order.
   */
  function NormalizeEnergyValues(rawEnergy: JsValue): (r: NormalizedSeries)
    ensures !IsNullish(r.unit)
    ensures var unit := Get(Unwrap(rawEnergy, "energy"), "unit");
            && (IsNullish(unit) ==> r.unit == Str("Wh"))
            && (!IsNullish(unit) ==> r.unit == unit)
    ensures |r.values| <= |SeriesItems(Unwrap(rawEnergy, "energy"))|
    ensures forall i :: 0 <= i < |r.values| ==> 'T' in r.values[i].date
  {
    var energy := Unwrap(rawEnergy, "energy");
    var mapped := MapItems(SeriesItems(energy));
    var values := KeepDated(mapped);
    assert forall i :: 0 <= i < |values| ==> 'T' in values[i].date by {
      forall i | 0 <= i < |values| ensures 'T' in values[i].date {
        var m := MappedItem(Some(values[i].date), values[i].value);
        var j :| 0 <= j < |mapped| && mapped[j] == m;
        assert NormalizeItem(SeriesItems(energy)[j]) == m;
      }
    }
    NormalizedSeries(Coalesce(Get(energy, "unit"), Str("Wh")), values)
  }

  /** Every entry with a string date survives, with its normalised date and value. */
  lemma NormalizeEnergyValuesKeepsDated(rawEnergy: JsValue, j: nat)
    requires j < |SeriesItems(Unwrap(rawEnergy, "energy"))|
    requires Get(SeriesItems(Unwrap(rawEnergy, "energy"))[j], "date").Str?
    ensures var item := SeriesItems(Unwrap(rawEnergy, "energy"))[j];
            Point(Dates.NormalizeDate(Get(item, "date")).value, NormalizeItem(item).value)
              in NormalizeEnergyValues(rawEnergy).values
  {
    var items := SeriesItems(Unwrap(rawEnergy, "energy"));
    var mapped := MapItems(items);
    assert mapped[j] == NormalizeItem(items[j]);
  }

  /** The wrapped `{ energy: {...} }` and the bare object normalise alike. */
  lemma NormalizeEnergyValuesWrapped(inner: map<string, JsValue>)
    requires "energy" !in inner
    ensures NormalizeEnergyValues(Obj(map["energy" := Obj(inner)])) == NormalizeEnergyValues(Obj(inner))
  {
  }

  /** Without a `values` array the series is empty, and without a unit it is in Wh. */
  lemma NormalizeEnergyValuesDefaults(inner: map<string, JsValue>)
    requires "energy" !in inner
    requires "values" !in inner || !inner["values"].Arr?
    requires "unit" !in inner
    ensures NormalizeEnergyValues(Obj(inner)) == NormalizedSeries(Str("Wh"), [])
  {
  }

  /** Exactly the entries with a string date survive. */
  lemma NormalizeEnergyValuesAllDated(items: seq<JsValue>, unit: JsValue)
    requires !IsNullish(unit)
    requires forall i :: 0 <= i < |items| ==> Get(items[i], "date").Str?
    ensures var r := NormalizeEnergyValues(Obj(map["unit" := unit, "values" := Arr(items)]));
            |r.values| == |items|
            && forall i :: 0 <= i < |items| ==>
                 r.values[i].date == Dates.NormalizeDate(Get(items[i], "date")).value
                 && r.values[i].value == NormalizeItem(items[i]).value
  {
    KeepDatedAllDated(MapItems(items));
  }

  /** `{ date, value }` with a string date and a numeric value, as the service sends a reading. */
  function Reading(date: string, value: real): JsValue {
    Obj(map["date" := Str(date), "value" := Num(value)])
  }

  function Readings(dates: seq<string>, values: seq<real>): seq<JsValue>
    requires |dates| == |values|
  {
    seq(|dates|, i requires 0 <= i < |dates| => Reading(dates[i], values[i]))
  }

  /** Numeric readings normalise to points with the normalised dates and the same values. */
  lemma NormalizeNumericReadings(unit: JsValue, dates: seq<string>, values: seq<real>)
    requires !IsNullish(unit) && |dates| == |values|
    ensures var r := NormalizeEnergyValues(Obj(map["unit" := unit, "values" := Arr(Readings(dates, values))]));
            r == NormalizedSeries(unit, seq(|dates|, i requires 0 <= i < |dates| =>
                   Point(Dates.NormalizeDate(Str(dates[i])).value, Some(values[i]))))
  {
    var items := Readings(dates, values);
    var raw := Obj(map["unit" := unit, "values" := Arr(items)]);
    var points := seq(|dates|, i requires 0 <= i < |dates| =>
                    Point(Dates.NormalizeDate(Str(dates[i])).value, Some(values[i])));
    NormalizeEnergyValuesAllDated(items, unit);
    var r := NormalizeEnergyValues(raw);
    forall i | 0 <= i < |items|
      ensures r.values[i] == points[i]
    {
      assert items[i] == Reading(dates[i], values[i]);
      NormalizeItemValue(dates[i], Num(values[i]));
      ToNumberOfNumber(values[i], 0.0);
    }
    assert r.values == points;
  }

  /** A null reading stays null, a number stays itself, other values go through `toNumber`. */
  lemma NormalizeItemValue(date: string, value: JsValue)
    ensures IsNullish(value) ==>
              NormalizeItem(Obj(map["date" := Str(date), "value" := value])).value == None
    ensures !IsNullish(value) ==>
              NormalizeItem(Obj(map["date" := Str(date), "value" := value])).value == Some(ToNumber(value, 0.0))
    ensures NormalizeItem(Obj(map["date" := Str(date), "value" := Num(0.0)])).value == Some(0.0)
    ensures NormalizeItem(Obj(map["date" := Str(date), "value" := Str("abc")])).value == Some(0.0)
  {
    ToNumberOfWords(0.0);
  }

  /** An entry with a null date is dropped and a dated one kept, whatever their values. */
  lemma {:induction false} UndatedEntryDropped(unit: JsValue, date: string, x: real, y: real)
    requires !IsNullish(unit)
    ensures NormalizeEnergyValues(Obj(map[
              "unit" := unit,
              "values" := Arr([Obj(map["date" := Str(date), "value" := Num(x)]),
                               Obj(map["date" := Null, "value" := Num(y)])])]))
            == NormalizedSeries(unit, [Point(Dates.NormalizeDate(Str(date)).value, Some(x))])
  {
    var first := Obj(map["date" := Str(date), "value" := Num(x)]);
    var second := Obj(map["date" := Null, "value" := Num(y)]);
    var raw := Obj(map["unit" := unit, "values" := Arr([first, second])]);
    assert Unwrap(raw, "energy") == raw;
    assert SeriesItems(raw) == [first, second];
    var mapped := MapItems([first, second]);
    assert mapped[0] == MappedItem(Dates.NormalizeDate(Str(date)), Some(x));
    assert mapped[1] == MappedItem(None, Some(y));
    assert KeepDated(mapped[1..]) == [];
  }

  /**
   * `{ unit: "Wh", values: [{ date: "2024-01-01", value: 5 }, { date: null, value: 9 }] }`
   * normalises to the single point of the first entry.
   */
  lemma NormalizeEnergyValuesExample()
    ensures NormalizeEnergyValues(Obj(map[
              "unit" := Str("Wh"),
              "values" := Arr([Obj(map["date" := Str("2024-01-01"), "value" := Num(5.0)]),
                               Obj(map["date" := Null, "value" := Num(9.0)])])]))
            == NormalizedSeries(Str("Wh"), [Point("2024-01-01T00:00:00", Some(5.0))])
  {
    Dates.NormalizeDateOfBareDate();
    assert Dates.NormalizeDate(Str("2024-01-01")).value == "2024-01-01T00:00:00";
    UndatedEntryDropped(Str("Wh"), "2024-01-01", 5.0, 9.0);
  }

  // ------------------------------------------------------------------ mapping

  /** A point's energy in Wh, a null reading counting as 0 Wh. */
  function PointWh(point: Point, unit: JsValue): real {
    if point.value.None? then 0.0 else EnergyToWh(Num(point.value.value), unit)
  }

  /**
   * `mapIntradayToPowerPoints`: one power point per reading, in order, with
   * the reading's timestamp and the quarter hour's average power rounded to
   * hundredths of a kW.
   */
  function MapIntradayToPowerPoints(series: NormalizedSeries): (r: seq<PowerPoint>)
    ensures |r| == |series.values|
    ensures forall i :: 0 <= i < |r| ==> r[i].timestamp == series.values[i].date
    ensures forall i :: 0 <= i < |r| ==>
              -0.005 <= r[i].powerKw - PointWh(series.values[i], series.unit) / 250.0 <= 0.005
    ensures forall i :: 0 <= i < |r| && series.values[i].value.None? ==> r[i].powerKw == 0.0
  {
    seq(|series.values|, i requires 0 <= i < |series.values| =>
      PowerPoint(series.values[i].date,
                 Rounding.Round(EnergyWhToAverageKwForQuarter(PointWh(series.values[i], series.unit)), 2)))
  }

  /** Each power value is the quarter-hour average `Wh / 250`, rounded to two decimals. */
  lemma PowerPointIsQuarterHourAverage(series: NormalizedSeries, i: nat)
    requires i < |series.values|
    ensures MapIntradayToPowerPoints(series)[i].powerKw
            == Rounding.Round(EnergyWhToAverageKwForQuarter(PointWh(series.values[i], series.unit)), 2)
  {
  }

  /** In a kWh series a quarter hour of `x` kWh is an average of `4x` kW. */
  lemma PowerPointOfKwhReading(date: string, x: real)
    ensures MapIntradayToPowerPoints(NormalizedSeries(Str("kWh"), [Point(date, Some(x))]))[0].powerKw
            == Rounding.Round(4.0 * x, 2)
  {
    IsKwhOfString("kWh");
  }

  /** Mapping a concatenation maps each part. */
  lemma MapIntradayAppend(unit: JsValue, a: seq<Point>, b: seq<Point>)
    ensures MapIntradayToPowerPoints(NormalizedSeries(unit, a + b))
            == MapIntradayToPowerPoints(NormalizedSeries(unit, a))
               + MapIntradayToPowerPoints(NormalizedSeries(unit, b))
  {
  }

  /**
   * `mapDailyToEnergyDays`: one day per reading, in order, dated by the first
   * ten characters of the timestamp, with the energy in kWh to one decimal.
   */
  function MapDailyToEnergyDays(series: NormalizedSeries): (r: seq<EnergyDay>)
    ensures |r| == |series.values|
    ensures forall i :: 0 <= i < |r| ==> r[i].date == Text.Prefix(series.values[i].date, 10)
    ensures forall i :: 0 <= i < |r| ==>
              -0.05 <= r[i].energyKwh - WhToKwh(PointWh(series.values[i], series.unit)) <= 0.05
    ensures forall i :: 0 <= i < |r| && series.values[i].value.None? ==> r[i].energyKwh == 0.0
  {
    seq(|series.values|, i requires 0 <= i < |series.values| =>
      EnergyDay(Text.Prefix(series.values[i].date, 10),
                Rounding.Round(WhToKwh(PointWh(series.values[i], series.unit)), 1)))
  }

  /**
   * A daily entry dated "YYYY-MM-DD" (or "YYYY-MM-DD hh:mm:ss") keeps that
   * date through normalisation and mapping.
   */
  lemma EnergyDayKeepsSourceDate(date: string, value: JsValue, unit: JsValue)
    requires |date| >= 10 && ' ' !in date[..10] && !IsNullish(unit)
    ensures var days := MapDailyToEnergyDays(NormalizeEnergyValues(Obj(map[
              "unit" := unit, "values" := Arr([Obj(map["date" := Str(date), "value" := value])])])));
            |days| == 1 && days[0].date == date[..10]
  {
    var item := Obj(map["date" := Str(date), "value" := value]);
    NormalizeEnergyValuesAllDated([item], unit);
    Dates.NormalizedDatePrefix(date);
  }

  // ---------------------------------------------------------------- summation

  /** Sum of the readings in Wh with null readings as 0: the reference for the reduction. */
  function TotalWh(values: seq<Point>, unit: JsValue): (total: real)
    ensures (forall i :: 0 <= i < |values| ==> PointWh(values[i], unit) >= 0.0) ==> total >= 0.0
  {
    if values == [] then 0.0
    else
      assert forall i :: 1 <= i < |values| ==> values[i] == values[1..][i - 1];
      PointWh(values[0], unit) + TotalWh(values[1..], unit)
  }

  lemma {:induction false} TotalWhAppend(a: seq<Point>, b: seq<Point>, unit: JsValue)
    ensures TotalWh(a + b, unit) == TotalWh(a, unit) + TotalWh(b, unit)
  {
    if a != [] {
      assert (a + b)[0] == a[0];
      assert (a + b)[1..] == a[1..] + b;
      TotalWhAppend(a[1..], b, unit);
    } else {
      assert a + b == b;
    }
  }

  /** The reducer: a null reading leaves the running total alone. */
  function ReduceStep(total: real, point: Point, unit: JsValue): (next: real)
    ensures next == total + PointWh(point, unit)
    ensures point.value.None? ==> next == total
  {
    if point.value.None? then total else total + EnergyToWh(Num(point.value.value), unit)
  }

  /** `values.reduce(ReduceStep, 0)`, folding from the first reading to the last. */
  function ReduceWh(values: seq<Point>, unit: JsValue): (total: real)
    ensures total == TotalWh(values, unit)
  {
    if values == [] then 0.0
    else
      var init, last := values[..|values| - 1], values[|values| - 1];
      TotalWhAppend(init, [last], unit);
      assert init + [last] == values;
      ReduceStep(ReduceWh(init, unit), last, unit)
  }

  /** `sumEnergyKwh`: the series' energy in kWh, null readings contributing nothing. */
  function SumEnergyKwh(series: NormalizedSeries): (kwh: real)
    ensures kwh == WhToKwh(TotalWh(series.values, series.unit))
  {
    WhToKwh(ReduceWh(series.values, series.unit))
  }

  /** Replacing a null reading by a zero reading does not change the sum. */
  lemma {:induction false} NullReadingCountsAsZero(values: seq<Point>, i: nat, unit: JsValue)
    requires i < |values| && values[i].value.None?
    ensures TotalWh(values[i := Point(values[i].date, Some(0.0))], unit) == TotalWh(values, unit)
  {
    if i > 0 {
      var changed := values[i := Point(values[i].date, Some(0.0))];
      assert changed[1..] == values[1..][i - 1 := Point(values[i].date, Some(0.0))];
      NullReadingCountsAsZero(values[1..], i - 1, unit);
    }
  }

  /** Sum of the (unrounded) quarter-hour average powers of a series, in kW. */
  function AveragePowerSumKw(values: seq<Point>, unit: JsValue): real {
    if values == [] then 0.0
    else EnergyWhToAverageKwForQuarter(PointWh(values[0], unit)) + AveragePowerSumKw(values[1..], unit)
  }

  /**
   * The day's energy is the power curve integrated over quarter hours: the
   * sum of the unrounded average powers times 0.25 h.
   */
  lemma {:induction false} EnergyIsPowerTimesQuarterHours(values: seq<Point>, unit: JsValue)
    ensures SumEnergyKwh(NormalizedSeries(unit, values)) == AveragePowerSumKw(values, unit) * 0.25
  {
    if values != [] {
      EnergyIsPowerTimesQuarterHours(values[1..], unit);
    }
  }
}
