/** The two number readers the dashboard uses on text: `parseFloat` and `parseInt`, both
    of which read the longest numeric prefix after leading white space and give NaN (here
    `None`) when there is none. Values are exact reals; `Infinity` spellings are not read. */
module JsNumber {
  import opened JsText

  predicate IsDigit(c: char) {
    '0' <= c <= '9'
  }

  /** The value of a decimal digit character, 0 for any other character. */
  function DigitValue(c: char): (d: nat)
    ensures d < 10
  {
    if IsDigit(c) then (c as int) - ('0' as int) else 0
  }

  predicate AllDigits(s: string) {
    forall i :: 0 <= i < |s| ==> IsDigit(s[i])
  }

  /** Number of consecutive decimal digits of `s` starting at `i`. */
  function DigitRun(s: string, i: nat): (n: nat)
    requires i <= |s|
    ensures i + n <= |s|
    ensures i + n < |s| ==> !IsDigit(s[i + n])
    decreases |s| - i
  {
    if i < |s| && IsDigit(s[i]) then 1 + DigitRun(s, i + 1) else 0
  }

  /** The value of a string of decimal digits (0 for the empty string). */
  function DecimalValue(s: string): nat
  {
    if s == "" then 0 else DecimalValue(s[..|s| - 1]) * 10 + DigitValue(s[|s| - 1])
  }

  function Pow10(n: nat): (p: nat)
    ensures p >= 1
  {
    if n == 0 then 1 else 10 * Pow10(n - 1)
  }

  /** Index of the first character at or after `i` that is not white space. */
  function SkipSpaces(s: string, i: nat): (j: nat)
    requires i <= |s|
    ensures i <= j <= |s|
    ensures j < |s| ==> !IsSpace(s[j])
    decreases |s| - i
  {
    if i < |s| && IsSpace(s[i]) then SkipSpaces(s, i + 1) else i
  }

  /** Index just past an optional '+' or '-' at `i`, and whether it was '-'. */
  function SignAt(s: string, i: nat): (r: (nat, bool))
    requires i <= |s|
    ensures r.0 == i || (r.0 == i + 1 && i < |s| && (s[i] == '+' || s[i] == '-'))
    ensures r.1 <==> (r.0 == i + 1 && s[i] == '-')
  {
    if i < |s| && s[i] == '-' then (i + 1, true)
    else if i < |s| && s[i] == '+' then (i + 1, false)
    else (i, false)
  }

  function Signed(negative: bool, v: real): real {
    if negative then -v else v
  }

  /** The optional exponent part `e[+-]digits` at `i`: the power of ten it denotes, or 0
      when what follows `i` is not a complete exponent (it is then not part of the number). */
  function ExponentAt(s: string, i: nat): int
    requires i <= |s|
  {
    if i < |s| && (s[i] == 'e' || s[i] == 'E') then
      var (k, negative) := SignAt(s, i + 1);
      var n := DigitRun(s, k);
      if n == 0 then 0
      else
        var e: int := DecimalValue(s[k..k + n]);
        if negative then -e else e
    else 0
  }

  /** `v * 10^e`. */
  function ScaleByPowerOfTen(v: real, e: int): real
    decreases if e >= 0 then e else -e
  {
    if e == 0 then v
    else if e > 0 then 10.0 * ScaleByPowerOfTen(v, e - 1)
    else ScaleByPowerOfTen(v, e + 1) / 10.0
  }

  /** The digits-and-point part of a decimal literal read from some index: where it ends,
      how many digits it holds and the value they denote. */
  datatype Mantissa = Mantissa(end: nat, digits: nat, value: real)

  /** Integer digits at `i`, then optionally '.' and fraction digits. */
  function MantissaAt(s: string, i: nat): (m: Mantissa)
    requires i <= |s|
    ensures i <= m.end <= |s|
    ensures m.digits == 0 ==> m.value == 0.0
  {
    var n := DigitRun(s, i);
    var intPart := DecimalValue(s[i..i + n]);
    if i + n < |s| && s[i + n] == '.' then
      var f := DigitRun(s, i + n + 1);
      var fracPart := DecimalValue(s[i + n + 1..i + n + 1 + f]);
      Mantissa(i + n + 1 + f, n + f, (intPart as real) + ScaleByPowerOfTen(fracPart as real, -(f as int)))
    else
      Mantissa(i + n, n, intPart as real)
  }

  /** `parseFloat(s)`: optional sign, integer digits, optional fraction, optional exponent;
      `None` (NaN) when neither integer nor fraction digits are present. */
  function ParseFloatPrefix(s: string): Option<real>
  {
    var start := SkipSpaces(s, 0);
    var (i, negative) := SignAt(s, start);
    var m := MantissaAt(s, i);
    if m.digits == 0 then None
    else Some(Signed(negative, ScaleByPowerOfTen(m.value, ExponentAt(s, m.end))))
  }

  /** A text without digits has no numeric prefix: `parseFloat` gives NaN. */
  lemma ParseFloatOfNoDigits(s: string)
    requires forall i :: 0 <= i < |s| ==> !IsDigit(s[i])
    ensures ParseFloatPrefix(s).None?
  {
    var start := SkipSpaces(s, 0);
    var (i, negative) := SignAt(s, start);
    var n := DigitRun(s, i);
    assert n == 0;
    if i + n < |s| && s[i + n] == '.' {
      assert DigitRun(s, i + n + 1) == 0;
    }
  }

  /** `parseFloat(x) || 0` on a string: the parsed value, with NaN (and -0) read as 0. */
  function ParseFloatOr0(s: string): real {
    match ParseFloatPrefix(s)
    case Some(v) => v
    case None => 0.0
  }

  /** `parseFloat(x) || 0` on an optional property: `parseFloat(undefined)` is NaN. */
  function NumberOr0(o: Option<string>): real {
    if o.Some? then ParseFloatOr0(o.value) else 0.0
  }

  // ---------------------------------------------------------------------------
  // parseInt
  // ---------------------------------------------------------------------------

  predicate IsHexDigit(c: char) {
    IsDigit(c) || ('a' <= c <= 'f') || ('A' <= c <= 'F')
  }

  /** The value of a hexadecimal digit character, 0 for any other character. */
  function HexDigitValue(c: char): (d: nat)
    ensures d < 16
  {
    if IsDigit(c) then DigitValue(c)
    else if 'a' <= c <= 'f' then (c as int) - ('a' as int) + 10
    else if 'A' <= c <= 'F' then (c as int) - ('A' as int) + 10
    else 0
  }

  function HexRun(s: string, i: nat): (n: nat)
    requires i <= |s|
    ensures i + n <= |s|
    decreases |s| - i
  {
    if i < |s| && IsHexDigit(s[i]) then 1 + HexRun(s, i + 1) else 0
  }

  function HexValue(s: string): nat
  {
    if s == "" then 0 else HexValue(s[..|s| - 1]) * 16 + HexDigitValue(s[|s| - 1])
  }

  /** Whether an "0x" / "0X" prefix starts at `i`. */
  predicate HexPrefixAt(s: string, i: nat) {
    i + 2 <= |s| && s[i] == '0' && (s[i + 1] == 'x' || s[i + 1] == 'X')
  }

  /** `parseInt(s)` when `radixTen` is false (an "0x" prefix then selects base 16) and
      `parseInt(s, 10)` when it is true: leading white space, an optional sign, then the
      longest run of digits of the base; `None` (NaN) when that run is empty. */
  function ParseIntPrefix(s: string, radixTen: bool): (r: Option<int>)
  {
    var start := SkipSpaces(s, 0);
    var (i, negative) := SignAt(s, start);
    if !radixTen && HexPrefixAt(s, i) then
      var n := HexRun(s, i + 2);
      if n == 0 then None
      else
        var v: int := HexValue(s[i + 2..i + 2 + n]);
        Some(if negative then -v else v)
    else
      var n := DigitRun(s, i);
      if n == 0 then None
      else
        var v: int := DecimalValue(s[i..i + n]);
        Some(if negative then -v else v)
  }

  // ---------------------------------------------------------------------------
  // Properties
  // ---------------------------------------------------------------------------

  lemma {:induction false} DigitRunAll(s: string, i: nat)
    requires i <= |s| && AllDigits(s)
    ensures DigitRun(s, i) == |s| - i
    decreases |s| - i
  {
    if i < |s| { DigitRunAll(s, i + 1); }
  }

  lemma {:induction false} DecimalValueOfNatToString(n: nat)
    ensures AllDigits(NatToString(n)) && DecimalValue(NatToString(n)) == n
  {
    var s := NatToString(n);
    if n >= 10 {
      DecimalValueOfNatToString(n / 10);
      assert s[..|s| - 1] == NatToString(n / 10);
    }
  }

  /** Both `parseInt` forms read a non-empty all-digit string as its decimal value:
      such a string cannot start with "0x". */
  lemma ParseIntOfDigits(s: string, radixTen: bool)
    requires s != "" && AllDigits(s)
    ensures ParseIntPrefix(s, radixTen) == Some(DecimalValue(s))
  {
    DigitRunAll(s, 0);
    assert SkipSpaces(s, 0) == 0;
    assert s[0..|s|] == s;
  }

  /** `parseInt(String(n))` gives `n` back, with or without a radix. */
  lemma ParseIntOfNatToString(n: nat, radixTen: bool)
    ensures ParseIntPrefix(NatToString(n), radixTen) == Some(n)
  {
    DecimalValueOfNatToString(n);
    ParseIntOfDigits(NatToString(n), radixTen);
  }

  lemma MantissaOfDigits(s: string)
    requires s != "" && AllDigits(s)
    ensures MantissaAt(s, 0) == Mantissa(|s|, |s|, DecimalValue(s) as real)
  {
    DigitRunAll(s, 0);
    assert s[0..|s|] == s;
  }

  /** `parseFloat(String(n))` gives `n` back. */
  lemma ParseFloatOfNatToString(n: nat)
    ensures ParseFloatPrefix(NatToString(n)) == Some(n as real)
  {
    DecimalValueOfNatToString(n);
    ParseFloatOfDigits(NatToString(n));
  }

  /** `parseFloat` of a run of decimal digits is their value. */
  lemma ParseFloatOfDigits(s: string)
    requires s != "" && AllDigits(s)
    ensures ParseFloatPrefix(s) == Some(DecimalValue(s) as real)
  {
    MantissaOfDigits(s);
    assert IsDigit(s[0]);
    assert SkipSpaces(s, 0) == 0;
    assert SignAt(s, 0) == (0, false);
    assert ExponentAt(s, |s|) == 0;
  }

  /** Leading zeros do not change a decimal value: the two-digit forms of `padStart`. */
  lemma DecimalValueLeadingZero(s: string)
    requires AllDigits(s)
    ensures AllDigits("0" + s) && DecimalValue("0" + s) == DecimalValue(s)
    decreases |s|
  {
    if s != "" {
      assert ("0" + s)[..|"0" + s| - 1] == "0" + s[..|s| - 1];
      DecimalValueLeadingZero(s[..|s| - 1]);
    }
  }
}
