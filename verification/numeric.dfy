/** Fixed-width unsigned integers as the Rust source uses them, the decimal
    parser behind `str::parse::<u16 / u64 / usize>()` and the decimal `Display`
    of unsigned integers. `usize` is taken to be 64 bits wide. */
module Numeric {
  import opened Wrappers

  const U16_MAX: nat := 0xFFFF
  const U64_MAX: nat := 0xFFFF_FFFF_FFFF_FFFF

  type U16 = n: nat | n <= U16_MAX
  type U64 = n: nat | n <= U64_MAX

  /** An `f64` value, kept opaque as its IEEE-754 bit pattern: nothing in the
      modelled core computes with floating-point numbers, it only carries them. */
  datatype F64 = F64(bits: bv64)

  predicate IsDigit(c: char) {
    '0' <= c <= '9'
  }

  predicate AllDigits(s: string) {
    forall i :: 0 <= i < |s| ==> IsDigit(s[i])
  }

  function DigitValue(c: char): nat
    requires IsDigit(c)
  {
    (c as int) - ('0' as int)
  }

  function DigitChar(d: nat): (c: char)
    requires d < 10
    ensures IsDigit(c) && DigitValue(c) == d
  {
    (('0' as int) + d) as char
  }

  /** The number a string of decimal digits denotes, most significant digit first. */
  function DigitsValue(s: string): nat
    requires AllDigits(s)
  {
    if |s| == 0 then 0
    else DigitsValue(s[..|s| - 1]) * 10 + DigitValue(s[|s| - 1])
  }

  /** The digits `str::parse` reads for an unsigned type: one optional leading `+`
      is skipped. */
  function Unsigned(s: string): string {
    if |s| > 0 && s[0] == '+' then s[1..] else s
  }

  /** `str::parse` for an unsigned integer type whose largest value is `max`:
      after one optional `+` there must be at least one ASCII digit and nothing
      else (no sign `-`, no whitespace, no `_`), and the value must not exceed
      `max`. Leading zeros are accepted. */
  function ParseUInt(s: string, max: nat): (r: Option<nat>)
    ensures r.Some? ==> r.value <= max
    ensures r.Some? <==> |Unsigned(s)| > 0 && AllDigits(Unsigned(s)) && DigitsValue(Unsigned(s)) <= max
    ensures r.Some? ==> r.value == DigitsValue(Unsigned(s))
  {
    var ds := Unsigned(s);
    if |ds| == 0 || !AllDigits(ds) then None
    else
      var v := DigitsValue(ds);
      if v <= max then Some(v) else None
  }

  /** The decimal rendering of `n` as Rust's `Display` writes an unsigned
      integer: no sign, no leading zeros, `"0"` for zero. */
  function ToDecimal(n: nat): (s: string)
    ensures |s| > 0 && AllDigits(s)
    ensures s[0] != '0' || n == 0
    decreases n
  {
    if n < 10 then [DigitChar(n)] else ToDecimal(n / 10) + [DigitChar(n % 10)]
  }

  lemma {:induction false} ToDecimalValue(n: nat)
    ensures DigitsValue(ToDecimal(n)) == n
    decreases n
  {
    if n >= 10 {
      var s := ToDecimal(n / 10);
      var t := ToDecimal(n);
      ToDecimalValue(n / 10);
      assert t[..|t| - 1] == s;
    }
  }

  /** What `Display` writes, `str::parse` reads back, whenever the value fits. */
  lemma ParseToDecimal(n: nat, max: nat)
    requires n <= max
    ensures ParseUInt(ToDecimal(n), max) == Some(n)
  {
    ToDecimalValue(n);
    assert Unsigned(ToDecimal(n)) == ToDecimal(n);
  }

  /** A canonical decimal string (digits only, no leading zero unless it is
      `"0"`) is exactly the rendering of the number it parses to. */
  lemma {:induction false} CanonicalDecimal(s: string)
    requires |s| > 0 && AllDigits(s) && (s[0] != '0' || |s| == 1)
    ensures ToDecimal(DigitsValue(s)) == s
    decreases |s|
  {
    if |s| > 1 {
      var p := s[..|s| - 1];
      CanonicalDecimal(p);
      PositiveLeadingDigit(p);
      assert DigitsValue(s) / 10 == DigitsValue(p);
      assert DigitsValue(s) % 10 == DigitValue(s[|s| - 1]);
    }
  }

  lemma {:induction false} PositiveLeadingDigit(s: string)
    requires |s| > 0 && AllDigits(s) && s[0] != '0'
    ensures DigitsValue(s) > 0
    decreases |s|
  {
    if |s| > 1 {
      PositiveLeadingDigit(s[..|s| - 1]);
    }
  }

  /** Inputs `str::parse::<u16>()` accepts or refuses at the edges. */
  lemma ParseEdgeCases()
    ensures ParseUInt("", U16_MAX) == None
    ensures ParseUInt("+", U16_MAX) == None
    ensures ParseUInt("-1", U16_MAX) == None
    ensures ParseUInt(" 1", U16_MAX) == None
    ensures ParseUInt("+007", U16_MAX) == Some(7)
    ensures ParseUInt("65535", U16_MAX) == Some(65535)
    ensures ParseUInt("65536", U16_MAX) == None
  {
    assert Unsigned("+007") == "007";
    assert "007"[..2] == "00" && "00"[..1] == "0";
    assert "65535"[..4] == "6553" && "6553"[..3] == "655" && "655"[..2] == "65" && "65"[..1] == "6";
    assert "65536"[..4] == "6553";
    assert !IsDigit(' ');
    assert !IsDigit('-');
  }
}
