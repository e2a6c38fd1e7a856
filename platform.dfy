/** The pieces of the .NET platform the logger leans on, reduced to what its
    logic observes: optional values, the outcome of one blocking HTTP GET,
    the exception kinds that decide which catch clause runs, the `\d` class
    of its two regular expressions, `Random.Next` and `int.ToString()`. */
module Platform {

  datatype Option<T> = None | Some(value: T)

  /** What one `GetAsync(url).Result` followed by `EnsureSuccessStatusCode()`
      and a body read yields. The body arrives already decoded (the status
      page is decoded from gb2312 before matching). */
  datatype HttpReply =
    | TransportFailure                    // `.Result` throws an AggregateException
    | Reply(statusOk: bool, body: string) // !statusOk: EnsureSuccessStatusCode throws HttpRequestException

  /** The exception types whose catch clauses the logger distinguishes. */
  datatype Exception =
    | AggregateException
    | HttpRequestException
    | ArgumentOutOfRangeException
    | InvalidCastException
    | NotImplementedException

  /** The `\d` character class, restricted to the ASCII digits. */
  predicate IsDigit(c: char) {
    '0' <= c <= '9'
  }

  predicate AllDigits(s: string) {
    forall k :: 0 <= k < |s| ==> IsDigit(s[k])
  }

  /** `new Random().Next(low, max)`: the draw is an input; the result lies in
      [low, max), or is `low` when the range is empty. */
  function Random(low: int, max: int, draw: nat): (r: int)
    requires low <= max
    ensures low < max ==> low <= r < max
    ensures low == max ==> r == low
  {
    if low == max then low else low + draw % (max - low)
  }

  function DigitChar(d: nat): (c: char)
    requires d < 10
    ensures IsDigit(c) && (c as int) - ('0' as int) == d
  {
    (('0' as int) + d) as char
  }

  /** `int.ToString()` for a non-negative value: decimal digits, no leading zero. */
  function DecimalString(n: nat): (s: string)
    ensures |s| >= 1 && AllDigits(s)
    ensures (s[0] == '0') == (n == 0)
  {
    if n < 10 then [DigitChar(n)] else DecimalString(n / 10) + [DigitChar(n % 10)]
  }

  /** The number a string of decimal digits denotes. */
  function DecimalValue(s: string): nat
    requires AllDigits(s)
  {
    if s == [] then 0
    else 10 * DecimalValue(s[..|s| - 1]) + ((s[|s| - 1] as int) - ('0' as int))
  }

  /** `ToString()` loses nothing: reading the digits back gives the number. */
  lemma {:induction false} DecimalRoundTrip(n: nat)
    ensures DecimalValue(DecimalString(n)) == n
  {
    if n >= 10 {
      var s := DecimalString(n);
      assert s[..|s| - 1] == DecimalString(n / 10);
      DecimalRoundTrip(n / 10);
    }
  }

  /** A number below 10^k has at most k digits. */
  lemma {:induction false} DecimalLength(n: nat, k: nat)
    requires n < Pow10(k) && k >= 1
    ensures |DecimalString(n)| <= k
  {
    if n >= 10 {
      DecimalLength(n / 10, k - 1);
    }
  }

  function Pow10(k: nat): (p: nat)
    ensures p >= 1
  {
    if k == 0 then 1 else 10 * Pow10(k - 1)
  }
}
