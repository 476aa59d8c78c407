// Decimal text of integers, as the configuration prints it and as secrets give it.
module Numbers {
  import opened Types

  predicate IsDigit(c: char) {
    '0' <= c <= '9'
  }

  predicate AllDigits(s: string) {
    forall i :: 0 <= i < |s| ==> IsDigit(s[i])
  }

  function DigitValue(c: char): (d: nat)
    requires IsDigit(c)
    ensures d < 10
  {
    c as int - '0' as int
  }

  function DigitChar(d: nat): (c: char)
    requires d < 10
    ensures IsDigit(c) && DigitValue(c) == d
  {
    ('0' as int + d) as char
  }

  function NatText(n: nat): (s: string)
    ensures s != "" && AllDigits(s)
  {
    if n < 10 then [DigitChar(n)] else NatText(n / 10) + [DigitChar(n % 10)]
  }

  function IntText(n: int): (s: string)
    ensures s != ""
  {
    if n < 0 then "-" + NatText(-n) else NatText(n)
  }

  /** Left-to-right accumulation of decimal digits. */
  function Accumulate(digits: string): nat
    requires AllDigits(digits)
  {
    if digits == "" then 0
    else 10 * Accumulate(digits[..|digits| - 1]) + DigitValue(digits[|digits| - 1])
  }

  function ParseDigits(s: string): Option<nat> {
    if s != "" && AllDigits(s) then Some(Accumulate(s)) else None
  }

  function Signed(negative: bool, n: nat): int {
    var magnitude: int := n;
    if negative then -magnitude else magnitude
  }

  /** Base-ten parsing with an optional sign, without bounds. */
  function ParseInt(s: string): Option<int> {
    if s != "" && s[0] == '-' then
      match ParseDigits(s[1..]) case Some(n) => Some(Signed(true, n)) case None => None
    else if s != "" && s[0] == '+' then
      match ParseDigits(s[1..]) case Some(n) => Some(Signed(false, n)) case None => None
    else
      match ParseDigits(s) case Some(n) => Some(Signed(false, n)) case None => None
  }

  const INT32_LIMIT := 0x8000_0000

  /** Parsing with a 32-bit bound: texts outside the signed range are errors. */
  function ParseIntBits32(s: string): Option<int> {
    match ParseInt(s)
    case Some(v) => if -INT32_LIMIT <= v < INT32_LIMIT then Some(v) else None
    case None => None
  }

  /** The conversion of a 64-bit value to 32 bits: it wraps around. */
  function Narrow32(v: int): int32 {
    (v + INT32_LIMIT) % (2 * INT32_LIMIT) - INT32_LIMIT
  }

  function Int32Of(s: string): Option<int32> {
    match ParseIntBits32(s)
    case Some(v) => Some(Narrow32(v))
    case None => None
  }

  // What a decimal text denotes, position by position.

  function Pow10(n: nat): nat {
    if n == 0 then 1 else 10 * Pow10(n - 1)
  }

  function PositionalSum(digits: string): nat
    requires AllDigits(digits)
  {
    if digits == "" then 0
    else DigitValue(digits[0]) * Pow10(|digits| - 1) + PositionalSum(digits[1..])
  }

  function Unsigned(s: string): string {
    if s != "" && (s[0] == '+' || s[0] == '-') then s[1..] else s
  }

  predicate Denotes(s: string, v: int) {
    Unsigned(s) != "" && AllDigits(Unsigned(s)) && v == Signed(s[0] == '-', PositionalSum(Unsigned(s)))
  }

  lemma {:induction false} AccumulateCons(d: char, t: string)
    requires IsDigit(d) && AllDigits(t)
    ensures AllDigits([d] + t)
    ensures Accumulate([d] + t) == DigitValue(d) * Pow10(|t|) + Accumulate(t)
  {
    var s := [d] + t;
    if t == "" {
      assert s[..0] == "";
    } else {
      assert s[..|s| - 1] == [d] + t[..|t| - 1];
      AccumulateCons(d, t[..|t| - 1]);
      TimesTen(DigitValue(d), Pow10(|t| - 1), Accumulate(t[..|t| - 1]));
    }
  }

  lemma TimesTen(x: nat, p: nat, a: nat)
    ensures 10 * (x * p + a) == x * (10 * p) + 10 * a
  {
  }

  lemma {:induction false} AccumulateIsPositional(digits: string)
    requires AllDigits(digits)
    ensures Accumulate(digits) == PositionalSum(digits)
  {
    if digits != "" {
      AccumulateCons(digits[0], digits[1..]);
      assert digits == [digits[0]] + digits[1..];
      AccumulateIsPositional(digits[1..]);
    }
  }

  /** Exactly the texts that denote an integer are parsed, to the integer they denote. */
  lemma ParseIntExactly(s: string, v: int)
    ensures ParseInt(s) == Some(v) <==> Denotes(s, v)
  {
    if AllDigits(Unsigned(s)) {
      AccumulateIsPositional(Unsigned(s));
    }
  }

  /** A secret's text is accepted exactly when it denotes a value in the signed 32-bit
      range, and the narrowing that follows loses nothing. */
  lemma Int32Exactly(s: string)
    ensures forall v: int32 :: Int32Of(s) == Some(v) <==> Denotes(s, v)
    ensures Int32Of(s) == None <==> forall v: int32 :: !Denotes(s, v)
  {
    forall v: int32 ensures Int32Of(s) == Some(v) <==> Denotes(s, v) {
      ParseIntExactly(s, v);
      if ParseInt(s).Some? {
        ParseIntExactly(s, ParseInt(s).value);
      }
    }
    if Int32Of(s).Some? {
      assert Denotes(s, Int32Of(s).value);
    }
  }

  lemma {:induction false} AccumulateNatText(n: nat)
    ensures Accumulate(NatText(n)) == n
  {
    if n >= 10 {
      AccumulateNatText(n / 10);
      var s := NatText(n);
      assert s[..|s| - 1] == NatText(n / 10);
    } else {
      assert NatText(n)[..0] == "";
    }
  }

  /** Printing and parsing again gives the same integer. */
  lemma IntTextRoundTrip(n: int)
    ensures ParseInt(IntText(n)) == Some(n)
  {
    if n < 0 {
      AccumulateNatText(-n);
      assert IntText(n)[1..] == NatText(-n);
    } else {
      AccumulateNatText(n);
      assert IsDigit(NatText(n)[0]);
    }
  }

  /** A 32-bit value printed into a configuration or a secret is read back as itself. */
  lemma Int32RoundTrip(n: int32)
    ensures Int32Of(IntText(n)) == Some(n)
  {
    hide ParseInt, IntText;
    IntTextRoundTrip(n);
  }

  /** The characters of a printed integer are digits, after at most one sign. */
  lemma IntTextPlain(n: int)
    ensures forall i :: 0 <= i < |IntText(n)| ==> IsDigit(IntText(n)[i]) || IntText(n)[i] == '-'
  {
  }

  lemma {:induction false} NatTextCanonical(n: nat)
    ensures NatText(n)[0] == '0' ==> n == 0
  {
    if n >= 10 {
      NatTextCanonical(n / 10);
      assert NatText(n)[0] == NatText(n / 10)[0];
    }
  }

  /** A printed integer has no plus sign and no leading zeros, and a minus sign exactly if it is
      negative. */
  lemma IntTextCanonical(n: int)
    ensures var digits := if n < 0 then IntText(n)[1..] else IntText(n);
            (n < 0 ==> IntText(n)[0] == '-') && digits != "" && AllDigits(digits) && (digits[0] == '0' ==> n == 0)
    ensures IntText(0) == "0"
  {
    NatTextCanonical(if n < 0 then -n else n);
    if n < 0 {
      assert IntText(n)[1..] == NatText(-n);
    }
  }

  // Booleans.

  function BoolText(b: bool): string {
    if b then "true" else "false"
  }

  function ParseBool(s: string): Option<bool> {
    if s in ["1", "t", "T", "TRUE", "true", "True"] then Some(true)
    else if s in ["0", "f", "F", "FALSE", "false", "False"] then Some(false)
    else None
  }

  lemma BoolTextRoundTrip(b: bool)
    ensures ParseBool(BoolText(b)) == Some(b)
  {
    if !b {
      assert "false"[0] == 'f';
      assert "false" !in ["1", "t", "T", "TRUE", "true", "True"];
      assert ["0", "f", "F", "FALSE", "false", "False"][4] == "false";
    } else {
      assert ["1", "t", "T", "TRUE", "true", "True"][4] == "true";
    }
  }
}
