/** The values a parameter map holds, the exceptions the script can raise,
    and how the substitution pass turns a value into text. */
module Values {
  import Decimal
  import opened Wrappers

  /** A Python value as the substitution pass sees it.  `Object` stands for
      anything that is neither a number, a bool nor a string (a module, a
      function, a class); it carries the text `str` gives for it. */
  datatype Value =
    | Float(x: real)
    | Int(i: int)
    | Bool(b: bool)
    | Str(s: string)
    | Object(text: string)

  /** The exceptions that end a run. */
  datatype Error =
    | KeyError(key: string)          // a missing configuration key or an undefined placeholder
    | AssertionError(check: string)  // an `assert` of `thrust_to_ang_vel`
    | ZeroDivisionError              // a float division by zero
    | ValueError                     // `math.sqrt` of a negative number
    | TypeError                      // arithmetic on a value that is not a number, or a lookup in one that is not a mapping
    | FileNotFoundError(path: string)

  /** Whether Python arithmetic accepts the value as a number. */
  predicate IsNumber(v: Value) {
    v.Float? || v.Int?
  }

  function AsReal(v: Value): real
    requires IsNumber(v)
  {
    if v.Float? then v.x else v.i as real
  }

  /** `v * 2` for a number: an int stays an int, a float stays a float. */
  function Double(v: Value): (r: Value)
    requires IsNumber(v)
    ensures IsNumber(r) && r.Int? == v.Int? && AsReal(r) == 2.0 * AsReal(v)
  {
    if v.Float? then Float(v.x * 2.0) else Int(v.i * 2)
  }

  /** Python's `+` on two numbers: int plus int is an int, anything else a
      float; a non-number is a `TypeError`. */
  function Add(v: Value, w: Value): (r: Result<Value, Error>)
    ensures r.Success? <==> IsNumber(v) && IsNumber(w)
    ensures r.Failure? ==> r.error == TypeError
    ensures r.Success? ==> IsNumber(r.value) && AsReal(r.value) == AsReal(v) + AsReal(w)
                           && (r.value.Int? <==> v.Int? && w.Int?)
  {
    if !IsNumber(v) || !IsNumber(w) then Failure(TypeError)
    else if v.Int? && w.Int? then Success(Int(v.i + w.i))
    else Success(Float(AsReal(v) + AsReal(w)))
  }

  /** Python's `*` on two numbers, typed as `+` is. */
  function Mul(v: Value, w: Value): (r: Result<Value, Error>)
    ensures r.Success? <==> IsNumber(v) && IsNumber(w)
    ensures r.Failure? ==> r.error == TypeError
    ensures r.Success? ==> IsNumber(r.value) && AsReal(r.value) == AsReal(v) * AsReal(w)
                           && (r.value.Int? <==> v.Int? && w.Int?)
  {
    if !IsNumber(v) || !IsNumber(w) then Failure(TypeError)
    else if v.Int? && w.Int? then Success(Int(v.i * w.i))
    else Success(Float(AsReal(v) * AsReal(w)))
  }

  /** Python's true division `/`: always a float; a zero divisor is a
      `ZeroDivisionError`, checked after the operand types. */
  function Div(v: Value, w: Value): (r: Result<Value, Error>)
    ensures !(IsNumber(v) && IsNumber(w)) ==> r == Failure(TypeError)
    ensures IsNumber(v) && IsNumber(w) && AsReal(w) == 0.0 ==> r == Failure(ZeroDivisionError)
    ensures IsNumber(v) && IsNumber(w) && AsReal(w) != 0.0 ==> r.Success?
    ensures r.Success? ==> IsNumber(v) && IsNumber(w) && AsReal(w) != 0.0
                           && r.value.Float? && r.value.x * AsReal(w) == AsReal(v)
  {
    if !IsNumber(v) || !IsNumber(w) then Failure(TypeError)
    else if AsReal(w) == 0.0 then Failure(ZeroDivisionError)
    else Success(Float(AsReal(v) / AsReal(w)))
  }

  /** The text that replaces a placeholder bound to `v`: a float goes through
      `str(round(v, 3))`, which `formatFloat` stands for; everything else goes
      through `str`. */
  function Render(v: Value, formatFloat: real -> string): string
  {
    match v
    case Float(x) => formatFloat(x)
    case Int(i) => Decimal.IntToString(i)
    case Bool(b) => if b then "True" else "False"
    case Str(s) => s
    case Object(text) => text
  }

  /** An int renders as its decimal numeral, which reads back as the
      number: digits only for a non-negative int, a minus sign followed by
      the digits of its magnitude for a negative one. */
  lemma RenderIntReadsBack(i: int, formatFloat: real -> string)
    ensures var r := Render(Int(i), formatFloat);
      && (i >= 0 ==> Decimal.AllDigits(r) && Decimal.DigitsValue(r) == i)
      && (i < 0 ==> |r| > 1 && r[0] == '-' && Decimal.AllDigits(r[1..]) && Decimal.DigitsValue(r[1..]) == -i)
  {
    if i >= 0 {
      Decimal.NatToStringRoundTrip(i);
    } else {
      var r := Render(Int(i), formatFloat);
      assert r[1..] == Decimal.NatToString(-i);
      Decimal.NatToStringRoundTrip(-i);
    }
  }
}
