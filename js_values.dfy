/** Option / Result / Outcome: the error paths of the model (a thrown Error becomes a Failure). */
module Wrappers {
  datatype Option<+T> = None | Some(value: T)

  datatype Result<+R, +E> = Success(value: R) | Failure(error: E)

  datatype Outcome<+E> = Pass | Fail(error: E)
}

/**
 * The JavaScript values the two entity classes receive and store, the
 * truthiness test behind `val || ""`, and the text a template literal
 * `${v}` produces for a primitive value.
 */
module JsValues {
  import opened Wrappers

  /** A `Date` object: either a real instant (milliseconds since the epoch) or an Invalid Date. */
  datatype JsDate = ValidDate(epochMillis: int) | InvalidDate

  /** A JavaScript value as far as the entities care; numbers are integers. */
  datatype JsVal =
    | Undefined
    | Null
    | Bool(b: bool)
    | Num(n: int)
    | Str(s: string)
    | DateV(date: JsDate)

  /** An error thrown by the core: its message and, when set, its `status` property. */
  datatype Error = Error(message: string, status: Option<int>)

  /** JavaScript falsiness; every object, an Invalid Date included, is truthy. */
  predicate IsFalsy(v: JsVal) {
    match v
    case Undefined => true
    case Null => true
    case Bool(b) => !b
    case Num(n) => n == 0
    case Str(s) => s == ""
    case DateV(_) => false
  }

  /** What a normalising setter may leave in its field: the empty string or a truthy value. */
  predicate Normalised(v: JsVal) {
    v == Str("") || !IsFalsy(v)
  }

  /** `val || ""`: a falsy value becomes the empty string, a truthy one is kept. */
  function OrEmpty(v: JsVal): (r: JsVal)
    ensures Normalised(r)
    ensures r != Undefined && r != Null
    ensures IsFalsy(v) <==> r == Str("")
    ensures !IsFalsy(v) ==> r == v
  {
    if IsFalsy(v) then Str("") else v
  }

  predicate IsDigit(c: char) {
    '0' <= c <= '9'
  }

  function DigitChar(d: nat): (c: char)
    requires d < 10
    ensures IsDigit(c) && c as int - '0' as int == d
  {
    ('0' as int + d) as char
  }

  /** The decimal numeral of a natural number, as `${n}` writes it. */
  function Digits(n: nat): (s: string)
    ensures |s| >= 1
    ensures forall i :: 0 <= i < |s| ==> IsDigit(s[i])
    ensures s[0] == '0' ==> n == 0
  {
    if n < 10 then [DigitChar(n)] else Digits(n / 10) + [DigitChar(n % 10)]
  }

  /** The number a string of decimal digits denotes (an independent reading of a numeral). */
  function DigitsValue(s: string): nat
    requires forall i :: 0 <= i < |s| ==> IsDigit(s[i])
  {
    if s == [] then 0
    else assert IsDigit(s[|s| - 1]); DigitsValue(s[..|s| - 1]) * 10 + (s[|s| - 1] as int - '0' as int)
  }

  /** Reading back the numeral that Digits writes gives the number again. */
  lemma {:induction false} DigitsRoundTrip(n: nat)
    ensures DigitsValue(Digits(n)) == n
  {
    if n >= 10 {
      var s := Digits(n);
      assert s[..|s| - 1] == Digits(n / 10);
      DigitsRoundTrip(n / 10);
    }
  }

  /** The text `${v}` yields for a primitive value (an integer number prints in decimal). */
  function Text(v: JsVal): (t: string)
    requires !v.DateV?
    ensures v.Str? ==> t == v.s
    ensures v.Num? ==> |t| >= 1 && (t[0] == '-' <==> v.n < 0)
  {
    match v
    case Undefined => "undefined"
    case Null => "null"
    case Bool(b) => if b then "true" else "false"
    case Num(n) =>
      if n < 0 then "-" + Digits(-n)
      else Digits(n)
    case Str(s) => s
  }
}
