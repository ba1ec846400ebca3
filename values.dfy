/** Python values as the core passes them around, the exceptions that can escape it,
    and the conversions int(), float() and + that the core applies to them. */
module Values {

  datatype Option<T> = None | Some(value: T)

  /** The exceptions that escape the modelled code. */
  datatype Fault =
    | ValueError
    | TypeError
    | KeyError(key: string)
    | ZeroDivisionError
    | ConfigurationError(message: string)
    | MachineError(trigger: string)
    | AttributeError(name: string)

  /** A Python call either returns a value or raises. */
  datatype Result<T> = Ok(value: T) | Raised(fault: Fault)

  /** The error dictionaries of the controller: {"error_code", "title", "detail"}. */
  datatype ErrorRecord = ErrorRecord(code: string, title: string, detail: string)

  /** A dynamically typed value: what a message field, a pin argument or a move
      parameter may hold. */
  datatype Value =
    | NoneV
    | IntV(i: int)
    | FloatV(r: real)
    | StrV(s: string)
    | RecordV(rec: ErrorRecord)
    | OtherV    // lists, tuples and other dictionaries

  predicate IsNumber(v: Value) { v.IntV? || v.FloatV? }

  // ---------------------------------------------------------------------------
  // Decimal digits

  predicate IsDigit(ch: char) { '0' <= ch <= '9' }

  predicate AllDigits(s: string) { forall i :: 0 <= i < |s| ==> IsDigit(s[i]) }

  function DigitChar(d: nat): (ch: char)
    requires d < 10
    ensures IsDigit(ch) && (ch as int) - ('0' as int) == d
  {
    (('0' as int) + d) as char
  }

  /** The number a string of decimal digits denotes (leading zeros allowed). */
  function DigitsValue(s: string): nat
    requires AllDigits(s)
    decreases |s|
  {
    if s == [] then 0
    else DigitsValue(s[..|s| - 1]) * 10 + ((s[|s| - 1] as int) - ('0' as int))
  }

  /** str() of a natural number: its shortest decimal spelling. */
  function NatToDigits(n: nat): (s: string)
    ensures |s| >= 1 && AllDigits(s)
    ensures DigitsValue(s) == n
    ensures |s| > 1 ==> s[0] != '0'
    decreases n
  {
    if n < 10 then [DigitChar(n)]
    else
      var prefix := NatToDigits(n / 10);
      var s := prefix + [DigitChar(n % 10)];
      assert s[..|s| - 1] == prefix;
      s
  }

  /** str() of an integer. */
  function IntToString(n: int): string
  {
    if n < 0 then "-" + NatToDigits(-n) else NatToDigits(n)
  }

  function Pow10(k: nat): (p: nat)
    ensures p >= 1
  {
    if k == 0 then 1 else 10 * Pow10(k - 1)
  }

  /** Splits an optional leading sign off a numeral: (negative, rest). */
  function SplitSign(s: string): (bool, string)
  {
    if |s| > 0 && (s[0] == '-' || s[0] == '+') then (s[0] == '-', s[1..]) else (false, s)
  }

  /** int(s) for a string: an optional sign followed by one or more decimal digits. */
  function ParseInt(s: string): Option<int>
  {
    var (negative, digits) := SplitSign(s);
    if |digits| >= 1 && AllDigits(digits) then
      var n: int := DigitsValue(digits);
      Some(if negative then -n else n)
    else None
  }

  /** Position of the first '.' in s, or |s| when there is none. */
  function PointIndex(s: string): (k: nat)
    ensures k <= |s|
    ensures k < |s| ==> s[k] == '.'
    ensures forall i :: 0 <= i < k ==> s[i] != '.'
  {
    if s == [] then 0
    else if s[0] == '.' then 0
    else 1 + PointIndex(s[1..])
  }

  /** float(s) for a string: an optional sign, then digits with at most one decimal
      point and at least one digit ("12", "-1.5", ".5", "3."). */
  function ParseDecimal(s: string): Option<real>
  {
    var (negative, body) := SplitSign(s);
    var k := PointIndex(body);
    var whole := body[..k];
    var fraction := if k < |body| then body[k + 1..] else [];
    if |whole| + |fraction| >= 1 && AllDigits(whole) && AllDigits(fraction) then
      var magnitude := DigitsValue(whole) as real
                       + DigitsValue(fraction) as real / Pow10(|fraction|) as real;
      Some(if negative then -magnitude else magnitude)
    else None
  }

  /** int(r) for a float: truncation toward zero. */
  function Truncate(r: real): (n: int)
    ensures 0.0 <= r ==> n as real <= r < n as real + 1.0
    ensures r < 0.0 ==> n as real - 1.0 < r <= n as real
  {
    if r >= 0.0 then r.Floor else -((-r).Floor)
  }

  /** Python's int(v): an int is kept, a float truncated toward zero, a string parsed;
      a string that does not parse raises ValueError, any other value TypeError. */
  function ToInt(v: Value): (r: Result<int>)
    ensures r.Ok? <==> v.IntV? || v.FloatV? || (v.StrV? && ParseInt(v.s).Some?)
    ensures v.IntV? ==> r == Ok(v.i)
    ensures v.FloatV? ==> r == Ok(Truncate(v.r))
    ensures v.StrV? && r.Ok? ==> r.value == ParseInt(v.s).value
    ensures r.Raised? ==> r.fault == if v.StrV? then ValueError else TypeError
  {
    match v
    case NoneV => Raised(TypeError)
    case IntV(i) => Ok(i)
    case FloatV(r) => Ok(Truncate(r))
    case StrV(s) => if ParseInt(s).Some? then Ok(ParseInt(s).value) else Raised(ValueError)
    case RecordV(_) => Raised(TypeError)
    case OtherV => Raised(TypeError)
  }

  /** Python's float(v): an int or a float keeps its value, a string is parsed as a
      decimal; a string that does not parse raises ValueError, any other value TypeError. */
  function ToFloat(v: Value): (r: Result<real>)
    ensures r.Ok? <==> IsNumber(v) || (v.StrV? && ParseDecimal(v.s).Some?)
    ensures v.IntV? ==> r == Ok(v.i as real)
    ensures v.FloatV? ==> r == Ok(v.r)
    ensures v.StrV? && r.Ok? ==> r.value == ParseDecimal(v.s).value
    ensures r.Raised? ==> r.fault == if v.StrV? then ValueError else TypeError
  {
    match v
    case NoneV => Raised(TypeError)
    case IntV(i) => Ok(i as real)
    case FloatV(r) => Ok(r)
    case StrV(s) => if ParseDecimal(s).Some? then Ok(ParseDecimal(s).value) else Raised(ValueError)
    case RecordV(_) => Raised(TypeError)
    case OtherV => Raised(TypeError)
  }

  /** Python's a + b on the values the controller adds (a position and an angle):
      numbers add (int + int stays an int), strings concatenate, anything else raises
      TypeError. */
  function Plus(a: Value, b: Value): (r: Result<Value>)
    ensures r.Ok? <==> (IsNumber(a) && IsNumber(b)) || (a.StrV? && b.StrV?)
    ensures IsNumber(a) && IsNumber(b) ==>
              IsNumber(r.value) && ToFloat(r.value).value == ToFloat(a).value + ToFloat(b).value
    ensures a.StrV? && b.StrV? ==> r.value == StrV(a.s + b.s)
    ensures !r.Ok? ==> r == Raised(TypeError)
  {
    if a.IntV? && b.IntV? then Ok(IntV(a.i + b.i))
    else if IsNumber(a) && IsNumber(b) then Ok(FloatV(ToFloat(a).value + ToFloat(b).value))
    else if a.StrV? && b.StrV? then Ok(StrV(a.s + b.s))
    else Raised(TypeError)
  }

  /** Python's a == b: numbers compare by value whatever their type, other values are
      equal when they are the same value. */
  predicate Equal(a: Value, b: Value)
  {
    if IsNumber(a) && IsNumber(b) then ToFloat(a).value == ToFloat(b).value else a == b
  }

  // ---------------------------------------------------------------------------
  // Properties of the conversions

  /** int() reads back what str() writes for every integer. */
  lemma {:induction false} ParseIntRoundTrip(n: int)
    ensures ParseInt(IntToString(n)) == Some(n)
    ensures ToInt(StrV(IntToString(n))) == Ok(n)
  {
    var digits := NatToDigits(if n < 0 then -n else n);
    if n < 0 {
      assert ("-" + digits)[1..] == digits;
    } else {
      assert digits[0] != '-' && digits[0] != '+';
    }
  }

  lemma {:induction false} PointIndexOfDigits(s: string)
    requires AllDigits(s)
    ensures PointIndex(s) == |s|
    decreases |s|
  {
    if s != [] {
      assert AllDigits(s[1..]) by {
        forall i | 0 <= i < |s[1..]| ensures IsDigit(s[1..][i]) { assert s[1..][i] == s[i + 1]; }
      }
      PointIndexOfDigits(s[1..]);
    }
  }

  /** == is an equivalence on values, and an int equals the float of the same value. */
  lemma EqualIsEquivalence(a: Value, b: Value, c: Value, i: int)
    ensures Equal(a, a)
    ensures Equal(a, b) ==> Equal(b, a)
    ensures Equal(a, b) && Equal(b, c) ==> Equal(a, c)
    ensures Equal(IntV(i), FloatV(i as real)) && IntV(i) != FloatV(i as real)
    ensures Equal(a, b) && !IsNumber(a) ==> a == b
  {
  }

  /** float() agrees with int() on every string int() accepts. */
  lemma {:induction false} DecimalExtendsInt(s: string)
    requires ParseInt(s).Some?
    ensures ParseDecimal(s) == Some(ParseInt(s).value as real)
    ensures ToFloat(StrV(s)) == Ok(ToInt(StrV(s)).value as real)
  {
    var (negative, body) := SplitSign(s);
    PointIndexOfDigits(body);
    assert body[..|body|] == body;
  }
}
