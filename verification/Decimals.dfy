/** Decimal texts of integers, and the readers of Rust's `u64` and `i64`. */
module Decimals {
  import opened Basics

  const U64_MAX: int := 0xFFFF_FFFF_FFFF_FFFF
  const I64_MAX: int := 0x7FFF_FFFF_FFFF_FFFF
  const I64_MIN: int := -0x8000_0000_0000_0000

  predicate Digit(c: char) { '0' <= c <= '9' }

  predicate AllDigits(text: string) { text != "" && forall k :: 0 <= k < |text| ==> Digit(text[k]) }

  function Value(text: string): nat
    requires forall k :: 0 <= k < |text| ==> Digit(text[k])
  {
    if text == "" then 0
    else
      var last := |text| - 1;
      assert Digit(text[last]);
      10 * Value(text[..last]) + (text[last] as int - '0' as int)
  }

  function ShowNat(n: nat): (text: string)
    ensures AllDigits(text)
    ensures Value(text) == n
  {
    var last := ('0' as int + n % 10) as char;
    assert Digit(last);
    if n < 10 then assert [last][..0] == ""; [last]
    else
      var text := ShowNat(n / 10) + [last];
      assert text[..|text| - 1] == ShowNat(n / 10);
      text
  }

  function ShowInt(n: int): string {
    if n < 0 then "-" + ShowNat(-n) else ShowNat(n)
  }

  /** One optional sign, then at least one digit, and no overflow. */
  function ReadU64(text: string): Option<int> {
    var digits := if text != "" && text[0] == '+' then text[1..] else text;
    if AllDigits(digits) && Value(digits) <= U64_MAX then Some(Value(digits)) else None
  }

  function ReadI64(text: string): Option<int> {
    if text != "" && text[0] == '-' then
      var digits := text[1..];
      if AllDigits(digits) && 0 - Value(digits) >= I64_MIN then Some(0 - Value(digits)) else None
    else
      var digits := if text != "" && text[0] == '+' then text[1..] else text;
      if AllDigits(digits) && Value(digits) <= I64_MAX then Some(Value(digits)) else None
  }

  lemma ReadShow(n: int)
    ensures n <= U64_MAX ==> ReadU64(ShowInt(n)) == if n >= 0 then Some(n) else None
    ensures I64_MIN <= n <= I64_MAX ==> ReadI64(ShowInt(n)) == Some(n)
  {
    if n < 0 {
      assert ShowInt(n)[1..] == ShowNat(-n);
      assert !Digit(ShowInt(n)[0]);
    } else {
      assert Digit(ShowNat(n)[0]);
    }
  }

  lemma NullIsNoNumber()
    ensures ReadU64("null").None? && ReadI64("null").None?
  {
    assert !Digit("null"[0]);
  }

  // ---------------------------------------------------------------- which texts are read as a number

  function Zeros(n: nat): string { seq(n, _ => '0') }

  /** The digits of `n`, with any zeros in front. */
  ghost predicate Writes(digits: string, n: nat) { exists k: nat :: digits == Zeros(k) + ShowNat(n) }

  lemma {:induction false} ZerosCountNothing(k: nat, digits: string)
    requires forall i :: 0 <= i < |digits| ==> Digit(digits[i])
    ensures forall i :: 0 <= i < k + |digits| ==> Digit((Zeros(k) + digits)[i])
    ensures Value(Zeros(k) + digits) == Value(digits)
  {
    var text := Zeros(k) + digits;
    if digits != "" {
      assert text[..|text| - 1] == Zeros(k) + digits[..|digits| - 1];
      ZerosCountNothing(k, digits[..|digits| - 1]);
    } else if k > 0 {
      assert text[..|text| - 1] == Zeros(k - 1) + "";
      ZerosCountNothing(k - 1, "");
    }
  }

  lemma OneDigit(c: char)
    requires Digit(c)
    ensures ShowNat(c as int - '0' as int) == [c] && Value([c]) == c as int - '0' as int
  {
    var n := c as int - '0' as int;
    assert 0 <= n < 10 && n % 10 == n && ('0' as int + n % 10) as char == c;
    assert [c][..0] == "" && Value("") == 0;
  }

  lemma NextDigit(m: nat, c: char)
    requires Digit(c) && m > 0
    ensures ShowNat(10 * m + (c as int - '0' as int)) == ShowNat(m) + [c]
  {
    var n := 10 * m + (c as int - '0' as int);
    assert n / 10 == m && n % 10 == c as int - '0' as int;
  }

  lemma ZerosEnd(k: nat, c: char)
    requires Digit(c)
    ensures (Zeros(k) + "0") + [c] == Zeros(k + 1) + ShowNat(c as int - '0' as int)
  {
    OneDigit(c);
  }

  lemma WriteOneMore(init: string, m: nat, c: char)
    requires Writes(init, m) && Digit(c)
    ensures Writes(init + [c], 10 * m + (c as int - '0' as int))
  {
    var k: nat :| init == Zeros(k) + ShowNat(m);
    if m == 0 {
      OneDigit('0');
      ZerosEnd(k, c);
    } else {
      NextDigit(m, c);
      assert init + [c] == Zeros(k) + (ShowNat(m) + [c]);
    }
  }

  lemma {:induction false} DigitsWrite(digits: string)
    requires AllDigits(digits)
    ensures Writes(digits, Value(digits))
  {
    var last := |digits| - 1;
    var init, c := digits[..last], digits[last];
    assert Digit(c) && digits == init + [c];
    if init == "" {
      OneDigit(c);
      assert digits == Zeros(0) + ShowNat(Value(digits));
    } else {
      DigitsWrite(init);
      WriteOneMore(init, Value(init), c);
    }
  }

  /** A text of digits has the value of the number it writes. */
  lemma DigitsIff(text: string, n: nat)
    ensures AllDigits(text) && Value(text) == n <==> Writes(text, n)
  {
    if AllDigits(text) { DigitsWrite(text); }
    if Writes(text, n) {
      var k: nat :| text == Zeros(k) + ShowNat(n);
      ZerosCountNothing(k, ShowNat(n));
    }
  }

  /** `n` in decimal, with at most one plus sign. */
  ghost predicate Decimal(text: string, n: int) {
    n >= 0 && (Writes(text, n) || (text != "" && text[0] == '+' && Writes(text[1..], n)))
  }

  /** The same, or the negative number in decimal after a minus sign. */
  ghost predicate SignedDecimal(text: string, n: int) {
    Decimal(text, n) || (n <= 0 && text != "" && text[0] == '-' && Writes(text[1..], -n))
  }

  /** The readers take exactly the decimal texts of the numbers in their range. */
  lemma ReadU64Iff(text: string, n: int)
    ensures ReadU64(text) == Some(n) <==> Decimal(text, n) && n <= U64_MAX
  {
    if n >= 0 {
      DigitsIff(text, n);
      if text != "" { DigitsIff(text[1..], n); }
    }
    assert text != "" && text[0] == '+' ==> !Digit(text[0]);
  }

  lemma ReadI64Iff(text: string, n: int)
    ensures ReadI64(text) == Some(n) <==> SignedDecimal(text, n) && I64_MIN <= n <= I64_MAX
  {
    if n >= 0 { DigitsIff(text, n); }
    if text != "" {
      if n >= 0 { DigitsIff(text[1..], n); }
      if n <= 0 { DigitsIff(text[1..], -n); }
      assert text[0] == '+' || text[0] == '-' ==> !Digit(text[0]);
    }
  }
}
