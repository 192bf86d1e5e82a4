/** Python values as the historian agent sees them: the entries of a platform
    record, of the agent's configuration and of a message body parsed from JSON,
    together with the exceptions the agent's code can raise and Python's `str`
    on those values. */
module PyValues {

  /** A `datetime` instance, carried with the two readings the agent takes from it:
      `epochNanos` is `int(dt.timestamp() * 1000 * 1000 * 1000)` (computed by Python
      in floating point, in the local time zone) and `text` is `str(dt)`. */
  datatype DateTime = DateTime(epochNanos: int, text: string)

  /** The number of days from 1970-01-01 to the given date of the proleptic
      Gregorian calendar (negative before it). Years are counted from March so
      that the leap day ends a year; `era` is the 400-year cycle. */
  function DaysFromCivil(year: int, month: int, day: int): int
    requires 1 <= month <= 12
  {
    var y := if month <= 2 then year - 1 else year;
    var era := y / 400;
    var yearOfEra := y - era * 400;
    var shiftedMonth := if month > 2 then month - 3 else month + 9;
    var dayOfYear := (153 * shiftedMonth + 2) / 5 + day - 1;
    var dayOfEra := yearOfEra * 365 + yearOfEra / 4 - yearOfEra / 100 + dayOfYear;
    era * 146097 + dayOfEra - 719468
  }

  /** The calendar starts counting at the Unix epoch. */
  lemma UnixEpochIsDayZero()
    ensures DaysFromCivil(1970, 1, 1) == 0
    ensures DaysFromCivil(1970, 3, 1) == 59 && DaysFromCivil(2000, 3, 1) == 11017
  {
  }

  /** A naive `datetime` with the given fields, read in UTC, with `text` as its `str`. */
  function UtcDateTime(year: int, month: int, day: int, hour: int, minute: int, second: int,
                       text: string): DateTime
    requires 1 <= month <= 12
  {
    var seconds := DaysFromCivil(year, month, day) * 86400 + hour * 3600 + minute * 60 + second;
    DateTime(seconds * 1000000000, text)
  }

  /** The kinds of value a record, a configuration or a JSON body can hold. A float
      is carried with its `repr`, which is what `str` returns for it. */
  datatype Value =
    | Str(s: string)
    | Int(i: int)
    | Float(repr: string)
    | Bool(b: bool)
    | NoneValue
    | Time(dt: DateTime)

  /** The exceptions that reach the agent's code. `SendFailure` stands for whatever
      the device client raises; `id` tells two such exception objects apart. */
  datatype Exception =
    | KeyError(key: string)
    | AttributeError(name: string)
    | ValueError
    | SendFailure(id: nat)

  datatype Option<+T> = None | Some(value: T)

  /** The outcome of a Python expression: a value, or the exception it raised. */
  datatype Result<+T> = Ok(value: T) | Raised(exc: Exception)

  /** Python's `d[key]` on a dictionary with string keys. */
  function Lookup(d: map<string, Value>, key: string): (r: Result<Value>)
    ensures r.Ok? <==> key in d
    ensures r.Ok? ==> r.value == d[key]
    ensures r.Raised? ==> r.exc == KeyError(key)
  {
    if key in d then Ok(d[key]) else Raised(KeyError(key))
  }

  /** CPython's default limit on the number of decimal digits, sign excluded, that
      `str` of an `int` may produce before raising `ValueError` (in 3.11 and later,
      and in the 3.10.7, 3.9.14, 3.8.14 and 3.7.14 security releases). */
  const IntMaxStrDigits: nat := 4300

  /** The number of decimal digits of `n` (one for zero). */
  function NumDigits(n: nat): (d: nat)
    ensures d >= 1
  {
    if n < 10 then 1 else 1 + NumDigits(n / 10)
  }

  function DigitChar(d: nat): (c: char)
    requires d < 10
    ensures '0' <= c <= '9' && c as int - '0' as int == d
  {
    (d + '0' as int) as char
  }

  predicate IsDigits(s: string)
  {
    forall k :: 0 <= k < |s| ==> '0' <= s[k] <= '9'
  }

  /** The decimal spelling of a natural number, without leading zeros. */
  function NatToDecimal(n: nat): (s: string)
    ensures |s| == NumDigits(n)
    ensures IsDigits(s)
    ensures s[0] == '0' <==> n == 0
    decreases n
  {
    if n < 10 then [DigitChar(n)] else NatToDecimal(n / 10) + [DigitChar(n % 10)]
  }

  /** The number a string of decimal digits spells: the reading `int` gives it. */
  function DecimalValue(s: string): (n: nat)
    requires IsDigits(s)
  {
    if s == [] then 0
    else DecimalValue(s[..|s| - 1]) * 10 + (s[|s| - 1] as int - '0' as int)
  }

  /** Python's `int` on the text `str` produces for an `int`. */
  function ParseInt(s: string): int
    requires |s| > 0
    requires IsDigits(s) || (s[0] == '-' && IsDigits(s[1..]))
  {
    if s[0] == '-' then -(DecimalValue(s[1..]) as int) else DecimalValue(s)
  }

  /** Python's `str` on a value. Among the values modelled here, only an `int` with
      more than `IntMaxStrDigits` digits makes it raise, and then with `ValueError`;
      a string is returned as it is. */
  function PyStr(v: Value): (r: Result<string>)
    ensures r.Raised? <==> v.Int? && NumDigits(if v.i < 0 then -v.i else v.i) > IntMaxStrDigits
    ensures r.Raised? ==> r.exc == ValueError
    ensures v.Str? ==> r == Ok(v.s)
    ensures v.Int? && r.Ok? ==> |r.value| > 0 && (IsDigits(r.value) || (r.value[0] == '-' && IsDigits(r.value[1..])))
  {
    match v
    case Str(s) => Ok(s)
    case Int(i) =>
      var digits := NatToDecimal(if i < 0 then -i else i);
      if |digits| > IntMaxStrDigits then Raised(ValueError)
      else if i < 0 then Ok("-" + digits) else Ok(digits)
    case Float(repr) => Ok(repr)
    case Bool(b) => Ok(if b then "True" else "False")
    case NoneValue => Ok("None")
    case Time(dt) => Ok(dt.text)
  }

  /** Reading back the decimal spelling of `n` gives `n`. */
  lemma {:induction false} DecimalRoundTrip(n: nat)
    ensures DecimalValue(NatToDecimal(n)) == n
    decreases n
  {
    var s := NatToDecimal(n);
    if n >= 10 {
      DecimalRoundTrip(n / 10);
      assert s[..|s| - 1] == NatToDecimal(n / 10);
    }
  }

  /** `int(str(i)) == i` whenever `str(i)` does not raise. */
  lemma StrIntRoundTrip(i: int)
    requires PyStr(Int(i)).Ok?
    ensures ParseInt(PyStr(Int(i)).value) == i
  {
    var s := PyStr(Int(i)).value;
    if i < 0 {
      DecimalRoundTrip(-i);
      assert s[1..] == NatToDecimal(-i);
    } else {
      DecimalRoundTrip(i);
    }
  }
}
