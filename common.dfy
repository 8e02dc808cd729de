/** Result shapes shared by every controller, the HTTP failure statuses the
    core answers with, JavaScript truthiness of request fields, and the decimal
    rendering a number gets when it is interpolated into a template string. */
module Common {

  datatype Option<+T> = None | Some(value: T) {
    function GetOr(default: T): T {
      if Some? then value else default
    }
  }

  /** The failures the controllers report, by their HTTP status; `ServerError` is
      a write the database refuses, which the error handler answers with 500. */
  datatype Failure = NotFound | BadRequest | ServerError {
    function Status(): int {
      match this
      case NotFound => 404
      case BadRequest => 400
      case ServerError => 500
    }
  }

  datatype Result<+T> = Ok(value: T) | Err(error: Failure)

  /** An operation whose success carries no value (204 No Content). */
  datatype Outcome = Done | Fail(error: Failure)

  /** A request id is truthy in JavaScript unless it is missing or 0. */
  predicate PresentId(o: Option<int>) {
    o.Some? && o.value != 0
  }

  /** A parsed amount is truthy unless it is missing (or NaN) or 0. */
  predicate PresentAmount(o: Option<real>) {
    o.Some? && o.value != 0.0
  }

  predicate IsDigit(c: char) {
    '0' <= c <= '9'
  }

  predicate AllDigits(s: string) {
    forall i :: 0 <= i < |s| ==> IsDigit(s[i])
  }

  function DigitChar(d: nat): (c: char)
    requires d < 10
    ensures IsDigit(c) && c as int - '0' as int == d
  {
    ('0' as int + d) as char
  }

  /** `${n}` for a non-negative integer n: its decimal digits, most significant first. */
  function Decimal(n: nat): (s: string)
    ensures |s| > 0 && AllDigits(s)
  {
    if n < 10 then [DigitChar(n)] else Decimal(n / 10) + [DigitChar(n % 10)]
  }

  /** Reads a string of decimal digits back as a number. */
  function ParseDecimal(s: string): nat
    requires AllDigits(s)
  {
    if s == [] then 0 else 10 * ParseDecimal(s[..|s| - 1]) + (s[|s| - 1] as int - '0' as int)
  }

  lemma {:induction false} DecimalRoundTrip(n: nat)
    ensures ParseDecimal(Decimal(n)) == n
  {
    if n >= 10 {
      DecimalRoundTrip(n / 10);
      var s := Decimal(n);
      assert s[..|s| - 1] == Decimal(n / 10);
    }
  }

  lemma DecimalInjective(m: nat, n: nat)
    requires Decimal(m) == Decimal(n)
    ensures m == n
  {
    DecimalRoundTrip(m);
    DecimalRoundTrip(n);
  }

  /** Two digit strings each followed by '-' can be told apart at the dash. */
  lemma SplitAtDash(a: string, x: string, b: string, y: string)
    requires AllDigits(a) && AllDigits(b)
    requires a + "-" + x == b + "-" + y
    ensures a == b && x == y
  {
    var s := a + "-" + x;
    assert s[|a|] == '-' && s[|b|] == '-';
    assert a == s[..|a|] == b;
    assert x == s[|a| + 1..] == y;
  }
}
