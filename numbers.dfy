/** The two number syntaxes the reader accepts, as Rust's `str::parse`
    defines them for `i64` and `f64`, and the decimal text `i64` values
    print as. */
module Numbers {
  import opened Bytes

  const I64_MIN: int := -0x8000_0000_0000_0000
  const I64_MAX: int := 0x7FFF_FFFF_FFFF_FFFF

  predicate IsI64(n: int) {
    I64_MIN <= n <= I64_MAX
  }

  predicate IsSign(c: byte) {
    c == '+' as byte || c == '-' as byte
  }

  predicate AllDigits(t: seq<byte>) {
    forall i :: 0 <= i < |t| ==> IsDigit(t[i])
  }

  function DigitValue(c: byte): (d: nat)
    requires IsDigit(c)
    ensures d < 10
  {
    c as int - '0' as int
  }

  /** The number a run of decimal digits denotes, most significant first. */
  function DigitsValue(t: seq<byte>): nat
    requires AllDigits(t)
  {
    if t == [] then 0 else 10 * DigitsValue(t[..|t| - 1]) + DigitValue(t[|t| - 1])
  }

  /** `<i64 as FromStr>::from_str`: an optional sign, then one or more
      decimal digits, denoting a value in range. A lone sign is rejected. */
  function ParseI64(t: seq<byte>): (r: Option<int>)
    ensures r.Some? ==> IsI64(r.value)
    ensures r.Some? ==> |t| > 0 && (IsDigit(t[0]) || (IsSign(t[0]) && |t| > 1))
    ensures r.Some? ==> AllDigits(t[SignLen(t)..])
  {
    if |t| == 0 || (IsSign(t[0]) && |t| == 1) then None
    else
      var digits := if IsSign(t[0]) then t[1..] else t;
      if !AllDigits(digits) then None
      else
        var n: int := if t[0] == '-' as byte then -(DigitsValue(digits) as int) else DigitsValue(digits);
        if IsI64(n) then Some(n) else None
  }

  /** The length of the optional sign in front of a number. */
  function SignLen(t: seq<byte>): (k: nat)
    ensures k <= |t|
  {
    if |t| > 0 && IsSign(t[0]) then 1 else 0
  }

  /** What a sign, then a run of digits, denotes: the digits' value,
      negated after a `-`. */
  function SignedValue(sign: seq<byte>, d: seq<byte>): int
    requires AllDigits(d)
  {
    if sign == ['-' as byte] then -(DigitsValue(d) as int) else DigitsValue(d)
  }

  /** Every optional sign followed by one or more digits is an `i64`
      literal exactly when its value is in range, and then denotes that
      value: `+5`, `007` and `-0` included. */
  lemma ParseI64Accepts(sign: seq<byte>, d: seq<byte>)
    requires sign == [] || (|sign| == 1 && IsSign(sign[0]))
    requires |d| > 0 && AllDigits(d)
    ensures ParseI64(sign + d) ==
      if IsI64(SignedValue(sign, d)) then Some(SignedValue(sign, d)) else None
  {
    var t := sign + d;
    if sign == [] {
      assert t == d;
    } else {
      assert t[0] == sign[0] && t[1..] == d;
    }
  }

  // ---------------------------------------------------------------------
  // `<f64 as FromStr>::from_str`: an optional sign, then `inf`,
  // `infinity` or `nan` in any case, or a decimal number with at least
  // one digit before or after an optional point and an optional exponent
  // `e` or `E`, optional sign, one or more digits. Out-of-range numbers
  // still parse (to an infinity or zero), so acceptance is syntax alone.

  /** The end of the run of digits starting at `i`. */
  function DigitRun(t: seq<byte>, i: nat): (j: nat)
    requires i <= |t|
    ensures i <= j <= |t| && AllDigits(t[i..j])
    ensures j < |t| ==> !IsDigit(t[j])
    decreases |t| - i
  {
    if i < |t| && IsDigit(t[i]) then DigitRun(t, i + 1) else i
  }

  /** `t` is `w`, an ASCII lower-case word, in any case. */
  predicate WordIgnoreCase(t: seq<byte>, w: string)
    requires forall i :: 0 <= i < |w| ==> 'a' <= w[i] <= 'z'
  {
    |t| == |w| && forall i :: 0 <= i < |t| ==> EqIgnoreCase(t[i], w[i])
  }

  predicate IsExponent(e: seq<byte>) {
    && |e| >= 2 && (e[0] == 'e' as byte || e[0] == 'E' as byte)
    && var j := if IsSign(e[1]) then 2 else 1;
       j < |e| && AllDigits(e[j..])
  }

  predicate IsDecimal(b: seq<byte>) {
    var d := DigitRun(b, 0);
    var f := if d < |b| && b[d] == '.' as byte then DigitRun(b, d + 1) else d;
    && (d > 0 || f > d + 1)
    && (f == |b| || IsExponent(b[f..]))
  }

  predicate F64Syntax(t: seq<byte>) {
    var body := if |t| > 0 && IsSign(t[0]) then t[1..] else t;
    || WordIgnoreCase(body, "inf") || WordIgnoreCase(body, "infinity")
    || WordIgnoreCase(body, "nan") || IsDecimal(body)
  }

  /** Every run of digits is a float literal too: the reader's fallback
      accepts an integer literal that is out of `i64` range. */
  lemma DigitsAreFloat(t: seq<byte>)
    requires |t| > 0 && AllDigits(t)
    ensures F64Syntax(t)
  {
    DigitRunAll(t, 0);
  }

  lemma {:induction false} DigitRunAll(t: seq<byte>, i: nat)
    requires i <= |t| && AllDigits(t)
    ensures DigitRun(t, i) == |t|
    decreases |t| - i
  {
    if i < |t| {
      DigitRunAll(t, i + 1);
    }
  }

  // ---------------------------------------------------------------------
  // Decimal text: `Display` for `i64`

  function DigitByte(d: nat): (c: byte)
    requires d < 10
    ensures IsDigit(c) && DigitValue(c) == d
  {
    (d + '0' as int) as byte
  }

  /** The shortest decimal digits of `n`. */
  function Digits(n: nat): (t: seq<byte>)
    ensures |t| > 0 && AllDigits(t)
  {
    if n < 10 then [DigitByte(n)] else Digits(n / 10) + [DigitByte(n % 10)]
  }

  /** `n` in decimal, with a leading `-` when negative. */
  function DecimalText(n: int): (t: seq<byte>)
    ensures |t| > 0 && (IsDigit(t[0]) || (t[0] == '-' as byte && |t| > 1 && IsDigit(t[1])))
    ensures forall i :: 0 < i < |t| ==> IsDigit(t[i])
  {
    if n < 0 then ['-' as byte] + Digits(-n) else Digits(n)
  }

  lemma {:induction false} DigitsValueOfDigits(n: nat)
    ensures DigitsValue(Digits(n)) == n
  {
    if n >= 10 {
      DigitsValueOfDigits(n / 10);
      var t := Digits(n);
      assert t[..|t| - 1] == Digits(n / 10);
    }
  }

  /** Printing an `i64` and parsing the text gives the number back. */
  lemma ParseDecimal(n: int)
    requires IsI64(n)
    ensures ParseI64(DecimalText(n)) == Some(n)
  {
    DigitsValueOfDigits(if n < 0 then -n else n);
    if n < 0 {
      assert DecimalText(n)[1..] == Digits(-n);
    }
  }

  /** A run of digits that does not fit an `i64` is no `i64` literal. */
  lemma OutOfRangeDigits(t: seq<byte>)
    requires |t| > 0 && AllDigits(t) && DigitsValue(t) > I64_MAX
    ensures ParseI64(t) == None
  {
  }
}
