/**
 * The JavaScript values the spending-goal layer handles: numbers produced by
 * `parseFloat`/`parseInt` (integers or NaN), fields that may be undefined or
 * null, submitted form data, and the decimal text forms of numbers.
 */
module JsValues {

  datatype Option<+T> = None | Some(value: T)

  /** A value, or the message of the Error that was thrown instead. */
  datatype Result<+T> = Success(value: T) | Failure(message: string)

  /** A JavaScript number, restricted to integral values, or NaN. */
  datatype Number = NaN | Num(value: int)

  /** A dynamically typed field that holds a number, or is undefined or null. */
  datatype Value = Undefined | Null | Numeric(number: Number)

  /** Submitted form fields; `formData.get(name)` is null for an absent name. */
  type FormData = map<string, string>

  function Get(form: FormData, name: string): Option<string>
  {
    if name in form then Some(form[name]) else None
  }

  /** JavaScript truthiness of a number: NaN and 0 are falsy. */
  predicate IsTruthyNumber(n: Number)
  {
    n.Num? && n.value != 0
  }

  /** JavaScript truthiness of a string-or-null: null and "" are falsy. */
  predicate IsTruthyString(s: Option<string>)
  {
    s.Some? && s.value != ""
  }

  predicate IsTruthyValue(v: Value)
  {
    v.Numeric? && IsTruthyNumber(v.number)
  }

  /** The value holds a number greater than zero. */
  predicate IsPositive(v: Value)
  {
    v.Numeric? && v.number.Num? && v.number.value > 0
  }

  /** `v <= 0` in JavaScript: undefined and NaN compare false, null compares as 0. */
  predicate AtMostZero(v: Value)
  {
    match v
    case Undefined => false
    case Null => true
    case Numeric(n) => n.Num? && n.value <= 0
  }

  /** `s || fallback` for a string-or-null. */
  function Or(s: Option<string>, fallback: string): string
  {
    if IsTruthyString(s) then s.value else fallback
  }

  predicate IsDigit(c: char)
  {
    '0' <= c <= '9'
  }

  predicate AllDigits(s: string)
  {
    forall i | 0 <= i < |s| :: IsDigit(s[i])
  }

  function DigitChar(d: nat): char
    requires d < 10
  {
    ('0' as int + d) as char
  }

  function DigitValue(c: char): nat
    requires IsDigit(c)
  {
    c as int - '0' as int
  }

  /** Decimal digits of n, most significant first, without leading zeros. */
  function Digits(n: nat): string
  {
    if n < 10 then [DigitChar(n)] else Digits(n / 10) + [DigitChar(n % 10)]
  }

  /** The number a string of decimal digits denotes. */
  function DigitsValue(s: string): nat
    requires AllDigits(s)
  {
    if s == [] then 0 else DigitsValue(s[..|s| - 1]) * 10 + DigitValue(s[|s| - 1])
  }

  /** Length of the longest prefix of s made of decimal digits. */
  function DigitRun(s: string): (k: nat)
    ensures k <= |s|
    ensures AllDigits(s[..k])
    ensures k < |s| ==> !IsDigit(s[k])
  {
    if s != [] && IsDigit(s[0]) then
      var k := 1 + DigitRun(s[1..]);
      assert s[..k] == [s[0]] + s[1..][..k - 1];
      k
    else 0
  }

  /** `String(n)`: the text a number shows as in a template string or via `toString()`. */
  function Format(n: Number): string
  {
    match n
    case NaN => "NaN"
    case Num(v) => if v < 0 then "-" + Digits(-v) else Digits(v)
  }

  /** `n.toFixed(2)` for an integral number. */
  function Fixed2(n: Number): string
  {
    if n.NaN? then "NaN" else Format(n) + ".00"
  }

  /** The text a field shows as in a template string. */
  function Show(v: Value): string
  {
    match v
    case Undefined => "undefined"
    case Null => "null"
    case Numeric(n) => Format(n)
  }

  /**
   * `parseFloat(s)` / `parseInt(s)`: an optional sign, then the longest run of
   * decimal digits; NaN when there is no digit.
   */
  function ParseNumber(s: string): (r: Number)
    ensures (s == [] || !(IsDigit(s[0]) || s[0] == '-' || s[0] == '+')) ==> r == NaN
    ensures r.Num? && r.value < 0 ==> s[0] == '-'
  {
    var body := if |s| > 0 && (s[0] == '-' || s[0] == '+') then s[1..] else s;
    var k := DigitRun(body);
    if k == 0 then NaN
    else if |s| > 0 && s[0] == '-' then Num(0 - DigitsValue(body[..k]))
    else Num(DigitsValue(body[..k]))
  }

  /** `parseFloat(formData.get(name))`: null reads as the text "null", hence NaN. */
  function ParseField(s: Option<string>): Number
  {
    match s
    case None => NaN
    case Some(text) => ParseNumber(text)
  }

  lemma {:induction false} DigitsWellFormed(n: nat)
    ensures |Digits(n)| >= 1 && AllDigits(Digits(n))
    ensures DigitsValue(Digits(n)) == n
  {
    if n >= 10 {
      DigitsWellFormed(n / 10);
      var s := Digits(n);
      assert s[..|s| - 1] == Digits(n / 10);
    }
  }

  /**
   * A number's decimal text followed by anything that does not continue the
   * digit run reads as that number: parsing stops at the first non-digit, so
   * "49.99" and "7px" read as 49 and 7.
   */
  lemma ParseStopsAtNonDigit(n: Number, rest: string)
    requires rest == [] || !IsDigit(rest[0])
    ensures ParseNumber(Format(n) + rest) == n
  {
    match n
    case NaN =>
      assert ("NaN" + rest)[0] == 'N';
    case Num(v) =>
      var d := Digits(if v < 0 then -v else v);
      DigitsWellFormed(if v < 0 then -v else v);
      DigitRunStops(d, rest);
      assert (d + rest)[..|d|] == d;
      if v < 0 {
        assert ("-" + d + rest)[1..] == d + rest;
      } else {
        assert (d + rest)[0] == d[0];
      }
  }

  lemma {:induction false} DigitRunStops(d: string, rest: string)
    requires AllDigits(d)
    requires rest == [] || !IsDigit(rest[0])
    ensures DigitRun(d + rest) == |d|
  {
    if d != [] {
      assert (d + rest)[1..] == d[1..] + rest;
      DigitRunStops(d[1..], rest);
    }
  }

  /** Reading back the decimal text of a number gives the number again. */
  lemma ParseFormat(n: Number)
    ensures ParseNumber(Format(n)) == n
  {
    ParseStopsAtNonDigit(n, []);
    assert Format(n) + [] == Format(n);
  }

  /** `parseInt(formData.get("goalId"))`: the row key a form names. */
  function GoalKey(form: FormData): Number
  {
    ParseField(Get(form, "goalId"))
  }

  /** A row key that is a number and names a stored row; NaN names none. */
  predicate Found<T>(key: Number, rows: map<int, T>)
  {
    key.Num? && key.value in rows
  }
}
