/** The few Python built-ins the scraper relies on: optional values, the
    exceptions it lets escape, `str()` of a non-negative int and `int()` of a
    string of decimal digits. */
module Py {

  datatype Option<+T> = None | Some(value: T)

  /** The exceptions that can escape the scraper's core (none of them is caught). */
  datatype PyError = IndexError | AttributeError | ValueError

  /** A value, or the exception raised while computing it. */
  datatype Result<+T> = Ok(value: T) | Raised(error: PyError)

  predicate IsDigit(c: char) { '0' <= c <= '9' }

  predicate AllDigits(s: string) { forall i :: 0 <= i < |s| ==> IsDigit(s[i]) }

  function DigitValue(c: char): (d: nat)
    requires IsDigit(c)
    ensures d < 10
  {
    c as int - '0' as int
  }

  function DigitChar(d: nat): (c: char)
    requires d < 10
    ensures IsDigit(c) && DigitValue(c) == d
  {
    ('0' as int + d) as char
  }

  /** `str(n)`: the shortest decimal spelling of `n`. */
  function NatToString(n: nat): (s: string)
    ensures AllDigits(s)
    ensures |s| == 1 <==> n < 10
    ensures |s| >= 1 && (|s| > 1 ==> s[0] != '0')
    decreases n
  {
    if n < 10 then [DigitChar(n)] else NatToString(n / 10) + [DigitChar(n % 10)]
  }

  /** The number a string of decimal digits denotes (leading zeros allowed). */
  function DecimalValue(s: string): nat
    requires AllDigits(s)
  {
    if s == [] then 0 else DecimalValue(s[..|s| - 1]) * 10 + DigitValue(s[|s| - 1])
  }

  /** The default of `sys.get_int_max_str_digits()`: `int()` refuses longer
      decimal strings. */
  const MaxStrDigits: nat := 4300

  /** `int(s)` on a string made only of decimal digits: the empty string and a
      string longer than the digit limit raise. */
  function ParseInt(s: string): (r: Result<nat>)
    requires AllDigits(s)
    ensures r.Raised? <==> s == "" || |s| > MaxStrDigits
    ensures r.Raised? ==> r.error == ValueError
  {
    if s == "" || |s| > MaxStrDigits then Raised(ValueError) else Ok(DecimalValue(s))
  }

  /** `int(str(n)) == n`, for every n whose decimal spelling is within the limit. */
  lemma {:induction false} ParseIntOfNatToString(n: nat)
    requires |NatToString(n)| <= MaxStrDigits
    ensures ParseInt(NatToString(n)) == Ok(n)
  {
    DecimalValueOfNatToString(n);
  }

  lemma {:induction false} DecimalValueOfNatToString(n: nat)
    ensures DecimalValue(NatToString(n)) == n
    decreases n
  {
    var s := NatToString(n);
    if n >= 10 {
      assert s[..|s| - 1] == NatToString(n / 10);
      DecimalValueOfNatToString(n / 10);
    }
  }

  /** Leading zeros do not change the value `int()` reads. */
  lemma {:induction false} LeadingZeroIgnored(s: string)
    requires AllDigits(s)
    ensures DecimalValue("0" + s) == DecimalValue(s)
    decreases |s|
  {
    if s != [] {
      assert ("0" + s)[..|"0" + s| - 1] == "0" + s[..|s| - 1];
      LeadingZeroIgnored(s[..|s| - 1]);
    }
  }
}
