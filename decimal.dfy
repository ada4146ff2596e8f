/**
 * Decimal text for `u64`, as the Rust standard library writes and reads it:
 * `Display` prints the digits without sign or leading zeros, and `str::parse::<u64>`
 * accepts an optional `+`, then one or more ASCII digits, and rejects values above
 * `u64::MAX`. Leading zeros are accepted, so parsing after printing is the identity
 * but printing after parsing is not.
 */
module Decimal {
  import opened Common

  /** `core::num::IntErrorKind` restricted to what unsigned parsing can report. */
  datatype IntErrorKind = Empty | InvalidDigit | PosOverflow

  predicate IsDigit(c: char) { '0' <= c <= '9' }

  predicate AllDigits(s: string) {
    forall i | 0 <= i < |s| :: IsDigit(s[i])
  }

  function DigitValue(c: char): nat
    requires IsDigit(c)
  {
    c as int - '0' as int
  }

  function DigitChar(d: nat): (c: char)
    requires d < 10
    ensures IsDigit(c) && DigitValue(c) == d
  {
    ('0' as int + d) as char
  }

  /** 10^k. */
  function Pow10(k: nat): (r: nat)
    ensures r >= 1
  {
    Pow(10, k)
  }

  /** The number a digit string denotes (the reference reading, last digit least significant). */
  function Value(s: string): nat
    requires AllDigits(s)
  {
    if s == [] then 0 else Value(s[..|s| - 1]) * 10 + DigitValue(s[|s| - 1])
  }

  /** `Display` for an unsigned integer. */
  function Display(n: nat): (s: string)
    ensures |s| >= 1 && AllDigits(s)
    ensures s[0] == '0' ==> s == "0"
  {
    if n < 10 then [DigitChar(n)] else Display(n / 10) + [DigitChar(n % 10)]
  }

  /** The digits after an optional leading `+`, which unsigned parsing skips. */
  function Unsigned(s: string): string {
    if |s| > 0 && s[0] == '+' then s[1..] else s
  }

  /**
   * The digit loop of `from_str_radix`: reads left to right, reporting the first
   * non-digit or the first digit that takes the value past `u64::MAX`.
   */
  function Accumulate(acc: u64, s: string): Result<u64, IntErrorKind>
    decreases |s|
  {
    if s == [] then Ok(acc)
    else if !IsDigit(s[0]) then Err(InvalidDigit)
    else if acc * 10 + DigitValue(s[0]) > U64_MAX then Err(PosOverflow)
    else Accumulate(acc * 10 + DigitValue(s[0]), s[1..])
  }

  /** `str::parse::<u64>`. */
  function ParseU64(s: string): (r: Result<u64, IntErrorKind>)
    ensures r.Ok? <==> |Unsigned(s)| > 0 && AllDigits(Unsigned(s)) && Value(Unsigned(s)) <= U64_MAX
    ensures r.Ok? ==> r.value == Value(Unsigned(s))
    ensures s == [] ==> r == Err(Empty)
  {
    if s == [] then Err(Empty)
    else if s == "+" || s == "-" then Err(InvalidDigit)
    else
      AccumulateReads(0, Unsigned(s));
      Accumulate(0, Unsigned(s))
  }

  lemma {:induction false} ValueCons(c: char, s: string)
    requires IsDigit(c) && AllDigits(s)
    ensures AllDigits([c] + s)
    ensures Value([c] + s) == DigitValue(c) * Pow10(|s|) + Value(s)
    decreases |s|
  {
    var cs := [c] + s;
    assert AllDigits(cs) by {
      forall i | 0 <= i < |cs| ensures IsDigit(cs[i]) {
        if i > 0 { assert cs[i] == s[i - 1]; }
      }
    }
    if s != [] {
      var init := s[..|s| - 1];
      assert AllDigits(init) by {
        forall i | 0 <= i < |init| ensures IsDigit(init[i]) { assert init[i] == s[i]; }
      }
      ValueCons(c, init);
      assert cs[..|cs| - 1] == [c] + init;
      calc {
        Value(cs);
        Value([c] + init) * 10 + DigitValue(s[|s| - 1]);
        (DigitValue(c) * Pow10(|init|) + Value(init)) * 10 + DigitValue(s[|s| - 1]);
        { Regroup(DigitValue(c), Pow10(|init|), Value(init), DigitValue(s[|s| - 1])); }
        DigitValue(c) * (Pow10(|init|) * 10) + (Value(init) * 10 + DigitValue(s[|s| - 1]));
        DigitValue(c) * Pow10(|s|) + Value(s);
      }
    }
  }

  lemma Regroup(d: nat, p: nat, v: nat, e: nat)
    ensures (d * p + v) * 10 + e == d * (p * 10) + (v * 10 + e)
  {
  }

  lemma AllDigitsCons(s: string)
    requires s != []
    ensures AllDigits(s) <==> IsDigit(s[0]) && AllDigits(s[1..])
  {
    if IsDigit(s[0]) && AllDigits(s[1..]) {
      forall i | 0 <= i < |s| ensures IsDigit(s[i]) {
        if i > 0 { assert s[i] == s[1..][i - 1]; }
      }
    }
  }

  lemma ShiftDigit(acc: nat, d: nat, k: nat, v: nat)
    ensures acc * Pow10(k + 1) + (d * Pow10(k) + v) == (acc * 10 + d) * Pow10(k) + v
  {
    calc {
      acc * Pow10(k + 1) + (d * Pow10(k) + v);
      acc * (10 * Pow10(k)) + d * Pow10(k) + v;
      { assert acc * (10 * Pow10(k)) == (acc * 10) * Pow10(k); }
      (acc * 10) * Pow10(k) + d * Pow10(k) + v;
      (acc * 10 + d) * Pow10(k) + v;
    }
  }

  /** The digit loop succeeds exactly when every character is a digit and the total fits. */
  lemma {:induction false} AccumulateReads(acc: u64, s: string)
    ensures Accumulate(acc, s).Ok? <==> AllDigits(s) && acc * Pow10(|s|) + Value(s) <= U64_MAX
    ensures Accumulate(acc, s).Ok? ==> Accumulate(acc, s).value == acc * Pow10(|s|) + Value(s)
    decreases |s|
  {
    if s != [] {
      var rest := s[1..];
      AllDigitsCons(s);
      if IsDigit(s[0]) {
        var d := DigitValue(s[0]);
        var next := acc * 10 + d;
        if next > U64_MAX {
          if AllDigits(s) {
            assert s == [s[0]] + rest;
            ValueCons(s[0], rest);
            ShiftDigit(acc, d, |rest|, Value(rest));
            MulMonotone(next, Pow10(|rest|));
          }
        } else {
          AccumulateReads(next, rest);
          if AllDigits(rest) {
            assert s == [s[0]] + rest;
            ValueCons(s[0], rest);
            ShiftDigit(acc, d, |rest|, Value(rest));
          }
        }
      }
    }
  }

  lemma MulMonotone(a: nat, b: nat)
    requires b >= 1
    ensures a * b >= a
  {
  }

  /** Every digit string is read back from its own text: `Display` then the reference reading. */
  lemma {:induction false} DisplayValue(n: nat)
    ensures Value(Display(n)) == n
    decreases n
  {
    if n >= 10 {
      DisplayValue(n / 10);
      var s := Display(n);
      assert s[..|s| - 1] == Display(n / 10);
    }
  }

  /** Round trip: parsing the printed form of any `u64` gives it back. */
  lemma ParseDisplay(n: u64)
    ensures ParseU64(Display(n)) == Ok(n)
  {
    DisplayValue(n);
    assert Unsigned(Display(n)) == Display(n);
  }

  /** The converse fails: leading zeros and a `+` sign are accepted but not reproduced. */
  lemma DisplayParseNotIdentity()
    ensures ParseU64("007") == Ok(7) && Display(7) == "7"
    ensures ParseU64("+7") == Ok(7)
  {
    assert Value("007") == 7 by {
      assert "007"[..2] == "00";
      assert "00"[..1] == "0";
      assert "0"[..0] == "";
    }
    assert Value("7") == 7 by { assert "7"[..0] == ""; }
    assert Unsigned("+7") == "7";
  }

  /** Rejections: an empty string, a lone sign and a minus sign. */
  lemma ParseRejects()
    ensures ParseU64("").Err? && ParseU64("+").Err? && ParseU64("-1").Err?
  {
    assert !IsDigit("-1"[0]);
  }

  /** Every numeral above `u64::MAX` is rejected. */
  lemma ParseRejectsOverflow(n: nat)
    requires n > U64_MAX
    ensures ParseU64(Display(n)).Err?
  {
    DisplayValue(n);
    assert Unsigned(Display(n)) == Display(n);
  }
}
