/** The two pieces of standard-library text handling the dispatcher relies on:
    Rust's `str::parse::<u8>` (used for the equalizer value) and the
    `to_string` of a `bool` (used by the toggle). */
module Text {
  import opened BudsTypes

  predicate IsDigit(c: char) {
    '0' <= c <= '9'
  }

  function DigitValue(c: char): (d: nat)
    requires IsDigit(c)
    ensures d < 10
  {
    c as int - '0' as int
  }

  function DigitChar(d: nat): (c: char)
    requires d < 10
    ensures IsDigit(c) && DigitValue(c) == d
  {
    ('0' as int + d) as char
  }

  predicate AllDigits(s: string) {
    forall i :: 0 <= i < |s| ==> IsDigit(s[i])
  }

  /** Value of a string of decimal digits, most significant first. */
  function DigitsValue(s: string): nat
    requires AllDigits(s)
  {
    if |s| == 0 then 0 else DigitsValue(s[..|s| - 1]) * 10 + DigitValue(s[|s| - 1])
  }

  /** The digits of `s` once an optional leading '+' is dropped. An unsigned
      type accepts no '-' sign, so a leading '-' stays and is then rejected
      as a non-digit. */
  function Unsigned(s: string): string {
    if |s| > 0 && s[0] == '+' then s[1..] else s
  }

  /** Rust's `str::parse::<u8>`: an optional '+', then one or more ASCII
      digits (leading zeros allowed) whose value is at most 255. Empty input,
      a lone sign, any other character, and overflow are all errors. */
  function ParseU8(s: string): (r: Option<u8>)
    // Empty input and a lone sign are rejected
    ensures |s| == 0 || s == "+" || s == "-" ==> r.None?
    // An unsigned value takes no '-' sign
    ensures |s| > 0 && s[0] == '-' ==> r.None?
    // Accepted input is digits after at most one leading '+'
    ensures r.Some? ==> forall i :: 0 < i < |s| ==> IsDigit(s[i])
    ensures r.Some? ==> IsDigit(s[0]) || s[0] == '+'
    // Any digit string of value at most 255 is accepted, leading zeros included
    ensures |s| > 0 && AllDigits(s) ==> (r.Some? <==> DigitsValue(s) <= 255)
    ensures |s| > 0 && AllDigits(s) && DigitsValue(s) <= 255 ==> r == Some(DigitsValue(s))
    // A leading '+' is dropped before the digits are read
    ensures |s| > 1 && s[0] == '+' && IsDigit(s[1]) ==> r == ParseU8(s[1..])
  {
    var digits := Unsigned(s);
    if |digits| == 0 || !AllDigits(digits) then None
    else if DigitsValue(digits) > 255 then None
    else Some(DigitsValue(digits))
  }

  /** A longer digit string never has a smaller value than its prefixes. */
  lemma {:induction false} PrefixValueBound(t: string, k: nat)
    requires AllDigits(t) && k <= |t|
    ensures AllDigits(t[..k]) && DigitsValue(t[..k]) <= DigitsValue(t)
    decreases |t| - k
  {
    if k < |t| {
      PrefixValueBound(t, k + 1);
      assert t[..k + 1][..k] == t[..k];
    } else {
      assert t[..k] == t;
    }
  }

  /** Digit-by-digit parse with an overflow check after every digit, the way
      the standard library accumulates; it agrees with `ParseU8` on every input. */
  method ParseU8Digitwise(s: string) returns (r: Option<u8>)
    ensures r == ParseU8(s)
  {
    var digits := Unsigned(s);
    if |digits| == 0 {
      return None;
    }
    var acc: nat := 0;
    var i := 0;
    while i < |digits|
      invariant 0 <= i <= |digits|
      invariant AllDigits(digits[..i])
      invariant acc == DigitsValue(digits[..i])
      invariant acc <= 255
    {
      if !IsDigit(digits[i]) {
        return None;
      }
      assert digits[..i + 1][..i] == digits[..i];
      var next := acc * 10 + DigitValue(digits[i]);
      if next > 255 {
        if AllDigits(digits) {
          PrefixValueBound(digits, i + 1);
        }
        return None;
      }
      acc := next;
      i := i + 1;
    }
    assert digits[..i] == digits;
    return Some(acc);
  }

  /** The shortest decimal rendering of `n`, as Rust's `to_string` prints it. */
  function Decimal(n: nat): (s: string)
    ensures |s| > 0 && AllDigits(s)
    decreases n
  {
    if n < 10 then [DigitChar(n)] else Decimal(n / 10) + [DigitChar(n % 10)]
  }

  lemma {:induction false} DecimalValue(n: nat)
    ensures DigitsValue(Decimal(n)) == n
    decreases n
  {
    if n >= 10 {
      DecimalValue(n / 10);
      var s := Decimal(n);
      assert s[..|s| - 1] == Decimal(n / 10);
    }
  }

  /** Every `u8` written in decimal parses back to itself. */
  lemma ParseU8Decimal(n: u8)
    ensures ParseU8(Decimal(n)) == Some(n)
  {
    DecimalValue(n);
  }

  /** Rust's `Display` for `bool`. */
  function BoolText(b: bool): (s: string)
    ensures s == "true" || s == "false"
    ensures (s == "true") == b
  {
    if b then "true" else "false"
  }
}
