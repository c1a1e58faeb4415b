/** Energy and power unit conversions of the dashboard pipeline (assets/js/api.js). */
module Units {
  import opened Wrappers
  import opened JsValues
  import Text

  /** `whToKwh`. */
  function WhToKwh(energyWh: real): (energyKwh: real)
    ensures energyKwh * 1000.0 == energyWh
  {
    energyWh / 1000.0
  }

  /** `wToKw`. */
  function WToKw(powerW: real): (powerKw: real)
    ensures powerKw * 1000.0 == powerW
  {
    powerW / 1000.0
  }

  /**
   * `${unit ?? "Wh"}`.toUpperCase(): the unit's text in upper case, with a
   * missing unit read as "Wh"; `None` where the text would be a number's.
   */
  function NormalizedUnit(unit: JsValue): (r: Option<string>)
    ensures IsNullish(unit) ==> r == Some("WH")
    ensures unit.Str? ==> r == Some(Text.ToUpper(unit.s))
    ensures unit.Num? ==> r == None
  {
    match Stringify(Coalesce(unit, Str("Wh")))
    case Some(t) =>
      assert IsNullish(unit) ==> Text.ToUpper(t) == "WH" by {
        if IsNullish(unit) { assert Text.ToUpper("Wh") == ['W', 'H']; }
      }
      Some(Text.ToUpper(t))
    case None => None
  }

  /** The unit names kilowatt-hours once upper-cased. */
  predicate IsKwh(unit: JsValue) {
    NormalizedUnit(unit) == Some("KWH")
  }

  /** `energyToWh`: kilowatt-hours are scaled by 1000, every other unit is taken as Wh. */
  function EnergyToWh(energyValue: JsValue, unit: JsValue): (wh: real)
    ensures IsKwh(unit) ==> WhToKwh(wh) == ToNumber(energyValue, 0.0)
    ensures !IsKwh(unit) ==> wh == ToNumber(energyValue, 0.0)
    ensures NumberValue(energyValue).None? ==> wh == 0.0
  {
    var numericValue := ToNumber(energyValue, 0.0);
    if IsKwh(unit) then numericValue * 1000.0 else numericValue
  }

  /**
   * `energyWhToAverageKwForQuarter`: the energy of a 15-minute interval in Wh,
   * divided by the interval's length of 0.25 h, is the average power in W;
   * in kW that is the energy divided by 250.
   */
  function EnergyWhToAverageKwForQuarter(energyWh: real): (kw: real)
    ensures kw == WToKw(energyWh / 0.25)
    ensures kw * 250.0 == energyWh
  {
    energyWh / 250.0
  }

  /** Any mixed-case spelling of kWh multiplies by 1000; a number is read as it is. */
  lemma EnergyToWhOfKwh(x: real, s: string)
    requires |s| == 3 && s[0] in "kK" && s[1] in "wW" && s[2] in "hH"
    ensures IsKwh(Str(s))
    ensures EnergyToWh(Num(x), Str(s)) == x * 1000.0
  {
    Text.ToUpperIsKwh(s);
  }

  /** A string unit counts as kWh exactly for those spellings. */
  lemma IsKwhOfString(s: string)
    ensures IsKwh(Str(s)) <==> |s| == 3 && s[0] in "kK" && s[1] in "wW" && s[2] in "hH"
  {
    Text.ToUpperIsKwh(s);
  }

  /** Every unit that is not kWh leaves the value as it is. */
  lemma EnergyToWhOfOtherUnit(x: real, unit: JsValue)
    requires !IsKwh(unit)
    ensures EnergyToWh(Num(x), unit) == x
  {
  }

  /** A missing unit (undefined or null), "Wh" and a numeric unit all mean Wh. */
  lemma EnergyToWhOfDefaultUnit(x: real, n: real)
    ensures EnergyToWh(Num(x), Undefined) == x
    ensures EnergyToWh(Num(x), Null) == x
    ensures EnergyToWh(Num(x), Str("Wh")) == x
    ensures EnergyToWh(Num(x), Num(n)) == x
  {
    IsKwhOfString("Wh");
  }

  /** An array unit of two or more entries prints with a comma and is never kWh. */
  lemma ArrayUnitIsNotKwh(xs: seq<JsValue>)
    requires |xs| >= 2
    ensures !IsKwh(Arr(xs))
  {
    if JoinElements(xs).Some? {
      JoinElementsHasComma(xs);
      var t := JoinElements(xs).value;
      var k :| 0 <= k < |t| && t[k] == ',';
      assert Text.ToUpper(t)[k] == ',';
    }
  }

  /** A value `Number()` cannot read counts as 0 Wh whatever the unit. */
  lemma EnergyToWhOfNonNumeric(value: JsValue, unit: JsValue)
    requires NumberValue(value).None?
    ensures EnergyToWh(value, unit) == 0.0
  {
  }

  /** kWh converted to Wh and back is the value it started from. */
  lemma KwhRoundTrip(x: real)
    ensures WhToKwh(EnergyToWh(Num(x), Str("kWh"))) == x
  {
    IsKwhOfString("kWh");
  }

  /** 250 Wh in a quarter hour is an average of 1 kW; no energy is no power. */
  lemma QuarterHourExamples()
    ensures EnergyWhToAverageKwForQuarter(250.0) == 1.0
    ensures EnergyWhToAverageKwForQuarter(0.0) == 0.0
    ensures EnergyWhToAverageKwForQuarter(1000.0) == 4.0
  {
  }
}
