/**
 * The dashboard model assembled from the three normalised payloads, as
 * `fetchDashboardData` does once the requests have answered
 * (assets/js/api.js). The payloads and the emission factor are parameters.
 */
module Dashboard {
  import opened Wrappers
  import opened JsValues
  import opened Series
  import Rounding
  import Units
  import Dates
  import Text

  /** `overview` of the dashboard model: the headline figures. */
  datatype OverviewFigures = OverviewFigures(
    currentPowerKw: real,
    todayEnergyKwh: real,
    peakPowerKw: real,
    co2AvoidedKg: real,
    lastUpdateTime: JsValue)

  /** `{ overview, power: { points }, energy: { days } }`. */
  datatype DashboardModel = DashboardModel(
    overview: OverviewFigures,
    powerPoints: seq<PowerPoint>,
    energyDays: seq<EnergyDay>)

  /** `points.map((point) => point.powerKw)`. */
  function PowerValues(points: seq<PowerPoint>): (r: seq<real>)
    ensures |r| == |points|
    ensures forall i :: 0 <= i < |r| ==> r[i] == points[i].powerKw
  {
    seq(|points|, i requires 0 <= i < |points| => points[i].powerKw)
  }

  /** `Math.max(...xs)` of a non-empty list: an element that no element exceeds. */
  function MaxOf(xs: seq<real>): (m: real)
    requires |xs| > 0
    ensures forall i :: 0 <= i < |xs| ==> xs[i] <= m
    ensures exists i :: 0 <= i < |xs| && xs[i] == m
  {
    if |xs| == 1 then xs[0]
    else
      var rest := MaxOf(xs[1..]);
      assert forall i :: 1 <= i < |xs| ==> xs[i] == xs[1..][i - 1];
      if xs[0] >= rest then xs[0] else rest
  }

  /** Every power point is already rounded to hundredths, so their maximum is too. */
  lemma PeakIsRounded(series: NormalizedSeries)
    requires |series.values| > 0
    ensures var peak := MaxOf(PowerValues(MapIntradayToPowerPoints(series)));
            Rounding.Round(peak, 2) == peak
  {
    var values := PowerValues(MapIntradayToPowerPoints(series));
    var j :| 0 <= j < |values| && values[j] == MaxOf(values);
    Rounding.RoundIdempotent(Units.EnergyWhToAverageKwForQuarter(PointWh(series.values[j], series.unit)), 2);
  }

  /** The CO2 the day's production avoided, in kg to one decimal. */
  function AvoidedKg(energyKwh: real, emissionsKgPerKwh: real): (kg: real)
    ensures -0.05 <= kg - energyKwh * emissionsKgPerKwh <= 0.05
  {
    Rounding.Round(energyKwh * emissionsKgPerKwh, 1)
  }

  /**
   * The headline figures from the normalised overview and intraday series.
   * Today's energy is the intraday sum and the peak the highest point of the
   * power curve; without an intraday point both fall back to the overview's
   * figures.
   */
  function Figures(overview: NormalizedOverview, intradaySeries: NormalizedSeries,
                   emissionsKgPerKwh: real): (r: OverviewFigures)
    ensures r.currentPowerKw == Rounding.Round(overview.currentPowerKw, 2)
    ensures r.lastUpdateTime == overview.lastUpdateTime
    ensures intradaySeries.values == [] ==>
              r.todayEnergyKwh == Rounding.Round(overview.lastDayEnergyKwh, 1)
              && r.peakPowerKw == r.currentPowerKw
    ensures intradaySeries.values != [] ==>
              r.todayEnergyKwh == Rounding.Round(SumEnergyKwh(intradaySeries), 1)
    ensures var points := MapIntradayToPowerPoints(intradaySeries);
            forall i :: 0 <= i < |points| ==> points[i].powerKw <= r.peakPowerKw
    ensures var points := MapIntradayToPowerPoints(intradaySeries);
            points != [] ==> exists i :: 0 <= i < |points| && points[i].powerKw == r.peakPowerKw
    ensures r.co2AvoidedKg == AvoidedKg(r.todayEnergyKwh, emissionsKgPerKwh)
  {
    var powerPoints := MapIntradayToPowerPoints(intradaySeries);
    var currentPowerKw := Rounding.Round(overview.currentPowerKw, 2);
    var todayEnergyKwh :=
      if |powerPoints| > 0 then Rounding.Round(SumEnergyKwh(intradaySeries), 1)
      else Rounding.Round(overview.lastDayEnergyKwh, 1);
    var peakPowerKw :=
      if |powerPoints| > 0 then MaxOf(PowerValues(powerPoints))
      else currentPowerKw;
    assert |powerPoints| > 0 ==> Rounding.Round(peakPowerKw, 2) == peakPowerKw by {
      if |powerPoints| > 0 { PeakIsRounded(intradaySeries); }
    }
    Rounding.RoundIdempotent(overview.currentPowerKw, 2);
    OverviewFigures(
      currentPowerKw,
      todayEnergyKwh,
      Rounding.Round(peakPowerKw, 2),
      AvoidedKg(todayEnergyKwh, emissionsKgPerKwh),
      overview.lastUpdateTime)
  }

  /**
   * The dashboard model of lines 225-250: the power curve of the intraday
   * series, the days of the daily series and the headline figures. There is
   * one power point per dated intraday reading and one day per dated daily
   * reading. Without a power point today's energy and the peak fall back to
   * the overview; otherwise the peak is the highest point of the curve.
   */
  function AssembleDashboard(rawOverview: JsValue, rawIntraday: JsValue, rawDaily: JsValue,
                             emissionsKgPerKwh: real): (r: DashboardModel)
    ensures |r.powerPoints| == |NormalizeEnergyValues(rawIntraday).values|
    ensures |r.energyDays| == |NormalizeEnergyValues(rawDaily).values|
    ensures forall k :: 0 <= k < |r.energyDays| ==>
              r.energyDays[k].date == Text.Prefix(NormalizeEnergyValues(rawDaily).values[k].date, 10)
    ensures r.overview.currentPowerKw == Rounding.Round(NormalizeOverview(rawOverview).currentPowerKw, 2)
    ensures r.overview.lastUpdateTime == NormalizeOverview(rawOverview).lastUpdateTime
    ensures r.powerPoints == [] ==>
              r.overview.todayEnergyKwh == Rounding.Round(NormalizeOverview(rawOverview).lastDayEnergyKwh, 1)
              && r.overview.peakPowerKw == r.overview.currentPowerKw
    ensures r.powerPoints != [] ==>
              r.overview.todayEnergyKwh == Rounding.Round(SumEnergyKwh(NormalizeEnergyValues(rawIntraday)), 1)
    ensures forall k :: 0 <= k < |r.powerPoints| ==> r.powerPoints[k].powerKw <= r.overview.peakPowerKw
    ensures r.powerPoints != [] ==>
              exists k :: 0 <= k < |r.powerPoints| && r.powerPoints[k].powerKw == r.overview.peakPowerKw
    ensures r.overview.co2AvoidedKg == AvoidedKg(r.overview.todayEnergyKwh, emissionsKgPerKwh)
    ensures r.powerPoints == MapIntradayToPowerPoints(NormalizeEnergyValues(rawIntraday))
    ensures r.energyDays == MapDailyToEnergyDays(NormalizeEnergyValues(rawDaily))
    ensures r.overview == Figures(NormalizeOverview(rawOverview), NormalizeEnergyValues(rawIntraday), emissionsKgPerKwh)
  {
    var intradaySeries := NormalizeEnergyValues(rawIntraday);
    DashboardModel(
      Figures(NormalizeOverview(rawOverview), intradaySeries, emissionsKgPerKwh),
      MapIntradayToPowerPoints(intradaySeries),
      MapDailyToEnergyDays(NormalizeEnergyValues(rawDaily)))
  }

  // ----------------------------------------------------------------- examples

  /** The fallback figures for an overview of 1.2 kW and 15 kWh, at 0.36 kg/kWh. */
  lemma FallbackFiguresExample(unit: JsValue)
    ensures Figures(NormalizedOverview(1.2, 15.0, Null), NormalizedSeries(unit, []), 0.36)
            == OverviewFigures(1.2, 15.0, 1.2, 5.4, Null)
  {
    assert Rounding.Scale(1) == 10.0 && Rounding.Scale(2) == 100.0;
    Rounding.RoundOnGrid(1.2, 120, 2);
    Rounding.RoundOnGrid(15.0, 150, 1);
    Rounding.RoundOnGrid(15.0 * 0.36, 54, 1);
  }

  /** An overview payload of 1200 W now and 15000 Wh yesterday. */
  function SampleOverview(): JsValue {
    Obj(map["currentPower" := Obj(map["power" := Num(1200.0)]),
            "lastDayData" := Obj(map["energy" := Num(15000.0)])])
  }

  lemma SampleOverviewNormalizes()
    ensures NormalizeOverview(SampleOverview()) == NormalizedOverview(1.2, 15.0, Null)
  {
    var raw := SampleOverview();
    assert Get(raw, "overview") == Undefined;
    assert Unwrap(raw, "overview") == raw;
    var currentPower := Get(raw, "currentPower");
    assert Get(currentPower, "power") == Num(1200.0);
    assert Get(Get(raw, "lastDayData"), "energy") == Num(15000.0);
    ToNumberOfNumber(1200.0, 0.0);
    ToNumberOfNumber(15000.0, 0.0);
  }

  /**
   * Without intraday readings the overview's figures are used: 1200 W and
   * 15000 Wh give 1.2 kW now and at peak, 15 kWh today and 5.4 kg at 0.36 kg/kWh.
   */
  lemma DashboardWithoutIntradayReadings(rawDaily: JsValue)
    ensures var d := AssembleDashboard(SampleOverview(), Null, rawDaily, 0.36);
            && d.powerPoints == []
            && d.overview == OverviewFigures(1.2, 15.0, 1.2, 5.4, Null)
  {
    SampleOverviewNormalizes();
    assert NormalizeEnergyValues(Null) == NormalizedSeries(Str("Wh"), []) by {
      assert Unwrap(Null, "energy") == EmptyObject;
    }
    FallbackFiguresExample(Str("Wh"));
  }

  /** Four quarter hours of 250, 500, 0 and 1000 Wh, whatever their timestamps. */
  predicate IsFourReadings(values: seq<Point>) {
    && |values| == 4
    && values[0].value == Some(250.0)
    && values[1].value == Some(500.0)
    && values[2].value == Some(0.0)
    && values[3].value == Some(1000.0)
  }

  /** A quarter hour of `wh` Wh, a whole number of 2.5 Wh steps, averages exactly `wh / 250` kW. */
  lemma QuarterPowerOnGrid(wh: real, units: int)
    requires wh == 2.5 * units as real
    ensures Rounding.Round(Units.EnergyWhToAverageKwForQuarter(Units.EnergyToWh(Num(wh), Str("Wh"))), 2)
            == wh / 250.0
  {
    Units.EnergyToWhOfDefaultUnit(wh, 0.0);
    assert Rounding.Scale(2) == 100.0;
    Rounding.RoundOnGrid(wh / 250.0, units, 2);
  }

  /** Their power curve is 1, 2, 0 and 4 kW. */
  lemma FourReadingsPower(values: seq<Point>)
    requires IsFourReadings(values)
    ensures PowerValues(MapIntradayToPowerPoints(NormalizedSeries(Str("Wh"), values))) == [1.0, 2.0, 0.0, 4.0]
  {
    var series := NormalizedSeries(Str("Wh"), values);
    var points := MapIntradayToPowerPoints(series);
    PowerPointIsQuarterHourAverage(series, 0);
    PowerPointIsQuarterHourAverage(series, 1);
    PowerPointIsQuarterHourAverage(series, 2);
    PowerPointIsQuarterHourAverage(series, 3);
    QuarterPowerOnGrid(250.0, 100);
    QuarterPowerOnGrid(500.0, 200);
    QuarterPowerOnGrid(0.0, 0);
    QuarterPowerOnGrid(1000.0, 400);
    assert points[0].powerKw == 1.0;
    assert points[1].powerKw == 2.0;
    assert points[2].powerKw == 0.0;
    assert points[3].powerKw == 4.0;
  }

  /** Their energy is 1750 Wh. */
  lemma FourReadingsTotal(values: seq<Point>)
    requires IsFourReadings(values)
    ensures TotalWh(values, Str("Wh")) == 1750.0
  {
    Units.EnergyToWhOfDefaultUnit(250.0, 0.0);
    Units.EnergyToWhOfDefaultUnit(500.0, 0.0);
    Units.EnergyToWhOfDefaultUnit(0.0, 0.0);
    Units.EnergyToWhOfDefaultUnit(1000.0, 0.0);
    assert values[3..][1..] == [];
    assert TotalWh(values[3..], Str("Wh")) == 1000.0;
    assert values[2..][1..] == values[3..];
    assert TotalWh(values[2..], Str("Wh")) == 1000.0;
    assert values[1..][1..] == values[2..];
    assert TotalWh(values[1..], Str("Wh")) == 1500.0;
  }

  /** 1.75 kWh shows as 1.8, and 1.8 kWh at 0.36 kg/kWh as 0.6 kg. */
  lemma FourReadingsRounding()
    ensures Rounding.Round(1.75, 1) == 1.8
    ensures AvoidedKg(1.8, 0.36) == 0.6
  {
    assert Rounding.Scale(1) == 10.0;
    assert Rounding.RoundedUnits(1.75, 1) == 18;
    assert Rounding.RoundedUnits(1.8 * 0.36, 1) == 6;
  }

  /**
   * With those readings today's energy is 1.75 kWh shown as 1.8, the peak is
   * 4 kW and, at 0.36 kg/kWh, 0.6 kg of CO2 were avoided.
   */
  lemma FourReadingsFigures(overview: NormalizedOverview, values: seq<Point>)
    requires IsFourReadings(values)
    ensures var r := Figures(overview, NormalizedSeries(Str("Wh"), values), 0.36);
            r.todayEnergyKwh == 1.8 && r.peakPowerKw == 4.0 && r.co2AvoidedKg == 0.6
  {
    var series := NormalizedSeries(Str("Wh"), values);
    FourReadingsPower(values);
    FourReadingsTotal(values);
    FourReadingsRounding();
    assert SumEnergyKwh(series) == 1.75;
    assert MaxOf([1.0, 2.0, 0.0, 4.0]) == 4.0;
    assert Rounding.Scale(2) == 100.0;
    Rounding.RoundOnGrid(4.0, 400, 2);
  }

  /** The intraday payload of the four readings, in Wh, dated `a` to `d`. */
  function FourReadingsPayload(a: string, b: string, c: string, d: string): JsValue {
    Obj(map["unit" := Str("Wh"), "values" := Arr(Readings([a, b, c, d], [250.0, 500.0, 0.0, 1000.0]))])
  }

  /** The payload normalises to the four readings, with the normalised timestamps. */
  lemma FourReadingsNormalize(a: string, b: string, c: string, d: string)
    ensures var r := NormalizeEnergyValues(FourReadingsPayload(a, b, c, d));
            && r.unit == Str("Wh")
            && IsFourReadings(r.values)
            && r.values[0].date == Dates.NormalizeDate(Str(a)).value
            && r.values[3].date == Dates.NormalizeDate(Str(d)).value
  {
    var dates, whs := [a, b, c, d], [250.0, 500.0, 0.0, 1000.0];
    var points := seq(|dates|, i requires 0 <= i < |dates| =>
                    Point(Dates.NormalizeDate(Str(dates[i])).value, Some(whs[i])));
    assert NormalizeEnergyValues(FourReadingsPayload(a, b, c, d)) == NormalizedSeries(Str("Wh"), points) by {
      NormalizeNumericReadings(Str("Wh"), dates, whs);
    }
    assert points[0].value == Some(250.0) && points[1].value == Some(500.0);
    assert points[2].value == Some(0.0) && points[3].value == Some(1000.0);
  }

  /** End to end: the dashboard computed from the raw intraday payload of the four readings. */
  lemma DashboardOfFourReadings(rawOverview: JsValue, rawDaily: JsValue, a: string, b: string, c: string, d: string)
    ensures var r := AssembleDashboard(rawOverview, FourReadingsPayload(a, b, c, d), rawDaily, 0.36);
            && PowerValues(r.powerPoints) == [1.0, 2.0, 0.0, 4.0]
            && r.overview.todayEnergyKwh == 1.8
            && r.overview.peakPowerKw == 4.0
            && r.overview.co2AvoidedKg == 0.6
  {
    var series := NormalizeEnergyValues(FourReadingsPayload(a, b, c, d));
    FourReadingsNormalize(a, b, c, d);
    assert series == NormalizedSeries(Str("Wh"), series.values);
    FourReadingsPower(series.values);
    FourReadingsFigures(NormalizeOverview(rawOverview), series.values);
  }
}
