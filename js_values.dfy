/**
 * The JavaScript values the pipeline receives: decoded JSON payloads and the
 * host page's override object. `Undefined` stands for a missing property,
 * `Null` for JSON null. Numbers are exact reals (finite by construction).
 */
module JsValues {
  import opened Wrappers
  import Decimal
  import Text

  datatype JsValue =
    | Undefined
    | Null
    | Bool(b: bool)
    | Num(n: real)
    | Str(s: string)
    | Arr(elems: seq<JsValue>)
    | Obj(fields: map<string, JsValue>)

  /** `v == null`: loose equality with null holds for null and undefined. */
  predicate IsNullish(v: JsValue) {
    v == Undefined || v == Null
  }

  /** `v ?? alternative`. */
  function Coalesce(v: JsValue, alternative: JsValue): JsValue {
    if IsNullish(v) then alternative else v
  }

  /**
   * `v?.key` for the keys the pipeline reads: an own property of an object,
   * and undefined on every other value (none of those keys is a property of
   * a primitive; on an array, `values` is a method, which is not an array,
   * and is treated as absent here).
   */
  function Get(v: JsValue, key: string): JsValue {
    if v.Obj? && key in v.fields then v.fields[key] else Undefined
  }

  const EmptyObject: JsValue := Obj(map[])

  /**
   * `Number(v)` when it is finite, `None` when it is NaN: null and the empty
   * array are 0, booleans are 0 or 1, strings are read as decimal text, an
   * array of one element converts through that element's text, and undefined,
   * objects and longer arrays give NaN.
   */
  function NumberValue(v: JsValue): (r: Option<real>)
    ensures v.Num? ==> r == Some(v.n)
    ensures v == Null || v == Arr([]) ==> r == Some(0.0)
    ensures v.Bool? ==> r == Some(if v.b then 1.0 else 0.0)
    ensures v == Undefined || v.Obj? || (v.Arr? && |v.elems| > 1) ==> r == None
    ensures v.Str? ==> r == Decimal.StringToNumber(v.s)
    ensures v.Arr? && |v.elems| == 1 && v.elems[0].Str? ==> r == Decimal.StringToNumber(v.elems[0].s)
  {
    match v
    case Undefined => None
    case Null => Some(0.0)
    case Bool(b) => Some(if b then 1.0 else 0.0)
    case Num(n) => Some(n)
    case Str(s) => Decimal.StringToNumber(s)
    case Arr(xs) =>
      if |xs| == 0 then Some(0.0)
      else if |xs| > 1 then None
      else (match xs[0]
            case Undefined => Some(0.0)
            case Null => Some(0.0)
            case Bool(_) => None
            case _ => NumberValue(xs[0]))
    case Obj(_) => None
  }

  /** `toNumber(value, fallback)`: the numeric value when it is finite, the fallback otherwise. */
  function ToNumber(value: JsValue, fallback: real): (r: real)
    ensures NumberValue(value).Some? ==> r == NumberValue(value).value
    ensures NumberValue(value).None? ==> r == fallback
  {
    NumberValue(value).GetOr(fallback)
  }

  /** A number passes through `toNumber` unchanged. */
  lemma ToNumberOfNumber(x: real, fallback: real)
    ensures ToNumber(Num(x), fallback) == x
  {
  }

  /** Missing values and objects fall back; null counts as 0. */
  lemma ToNumberFallback(fallback: real, fields: map<string, JsValue>)
    ensures ToNumber(Undefined, fallback) == fallback
    ensures ToNumber(Obj(fields), fallback) == fallback
    ensures ToNumber(Null, fallback) == 0.0
  {
  }

  /** Text that is not a decimal literal falls back. */
  lemma ToNumberOfWords(fallback: real)
    ensures ToNumber(Str("abc"), fallback) == fallback
  {
    Decimal.UnpaddedNonDigitText("abc", 0);
  }

  /** A decimal comma is not a decimal point: the text falls back. */
  lemma ToNumberOfDecimalComma(fallback: real)
    ensures ToNumber(Str("1,5"), fallback) == fallback
  {
    Decimal.UnpaddedNonDigitText("1,5", 1);
  }

  /**
   * A string that holds a non-digit and none of whitespace, a sign, a point,
   * an exponent letter or a radix letter (`x`, `o`, `b`), and that is not
   * "Infinity", is NaN to `Number()`.
   */
  lemma NonNumericText(s: string, j: nat)
    requires j < |s| && !Decimal.IsDigit(s[j])
    requires forall i :: 0 <= i < |s| ==> s[i] !in ".-+eExXoObB" && !Text.IsJsWhitespace(s[i])
    requires s != "Infinity"
    ensures Decimal.StringToNumber(s) == None
  {
    Decimal.UnpaddedNonDigitText(s, j);
  }

  /** Numeric text, also inside a one-element array, is read as its number. */
  lemma {:induction false} ToNumberOfNumericText(i: int, fallback: real)
    ensures ToNumber(Str(Decimal.IntToDecimal(i)), fallback) == i as real
    ensures ToNumber(Arr([Str(Decimal.IntToDecimal(i))]), fallback) == i as real
  {
    Decimal.StringToNumberOfDecimal(i);
  }

  /**
   * `String(v)` (and a template literal `${v}`), except that the text of a
   * number is not modelled: `None` wherever a number would be printed. Arrays
   * print their elements joined by commas, with null and undefined as empty.
   */
  function Stringify(v: JsValue): Option<string>
    decreases v
  {
    match v
    case Undefined => Some("undefined")
    case Null => Some("null")
    case Bool(b) => Some(if b then "true" else "false")
    case Num(_) => None
    case Str(s) => Some(s)
    case Arr(xs) => JoinElements(xs)
    case Obj(_) => Some("[object Object]")
  }

  /** `xs.join(",")` with null and undefined elements printed as empty. */
  function JoinElements(xs: seq<JsValue>): Option<string>
    decreases xs
  {
    if xs == [] then Some("")
    else
      var first := if IsNullish(xs[0]) then Some("") else Stringify(xs[0]);
      if |xs| == 1 then first
      else
        match (first, JoinElements(xs[1..]))
        case (Some(a), Some(b)) => Some(a + "," + b)
        case _ => None
  }

  /** An array of two or more elements always prints with a comma. */
  lemma {:induction false} JoinElementsHasComma(xs: seq<JsValue>)
    requires |xs| >= 2 && JoinElements(xs).Some?
    ensures ',' in JoinElements(xs).value
  {
    var first := if IsNullish(xs[0]) then Some("") else Stringify(xs[0]);
    var a, b := first.value, JoinElements(xs[1..]).value;
    assert JoinElements(xs).value == a + "," + b;
    assert (a + "," + b)[|a|] == ',';
  }

  /** The own enumerable properties of an array or of a string, keyed by index text. */
  function IndexKeyed(xs: seq<JsValue>): map<string, JsValue> {
    if xs == [] then map[]
    else IndexKeyed(xs[..|xs| - 1])[Decimal.NatToDecimal(|xs| - 1) := xs[|xs| - 1]]
  }

  /** Element `i` is the property named by the decimal text of `i`. */
  lemma {:induction false} IndexKeyedElements(xs: seq<JsValue>, i: nat)
    requires i < |xs|
    ensures Decimal.NatToDecimal(i) in IndexKeyed(xs)
    ensures IndexKeyed(xs)[Decimal.NatToDecimal(i)] == xs[i]
  {
    var init, n := xs[..|xs| - 1], |xs| - 1;
    if i < n {
      IndexKeyedElements(init, i);
      assert init[i] == xs[i];
      Decimal.DigitsValueOfDecimal(i);
      Decimal.DigitsValueOfDecimal(n);
    }
  }

  /** Every property is named by the decimal text of an index. */
  lemma {:induction false} IndexKeyedKeys(xs: seq<JsValue>, k: string)
    requires k in IndexKeyed(xs)
    ensures exists i :: 0 <= i < |xs| && k == Decimal.NatToDecimal(i)
  {
    var init, n := xs[..|xs| - 1], |xs| - 1;
    if k != Decimal.NatToDecimal(n) {
      IndexKeyedKeys(init, k);
    }
  }

  /**
   * The properties `{...v}` copies: all own properties of an object, the
   * elements of an array or the characters of a string by index, and
   * nothing for the other primitives, null and undefined.
   */
  function Spread(v: JsValue): (m: map<string, JsValue>)
    ensures v.Obj? ==> m == v.fields
    ensures !v.Obj? && !v.Arr? && !v.Str? ==> m == map[]
  {
    match v
    case Obj(fields) => fields
    case Arr(xs) => IndexKeyed(xs)
    case Str(s) => IndexKeyed(seq(|s|, i requires 0 <= i < |s| => Str([s[i]])))
    case _ => map[]
  }
}
