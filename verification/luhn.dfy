/** The modulus-10 "double-add-double" check digit of ISO/IEC 7812-1, Annex B (the Luhn
    algorithm), as `LuhnValidator` in scripts/data/card_generator.py computes it: a walk over
    the digits from the right that doubles every other digit. */
module Luhn {
  import opened Wrappers
  import opened Digits

  /** What one digit adds to the running total: the digit itself, or, when doubled, the sum
      of the decimal digits of its double. */
  function Contribution(d: nat, doubled: bool): (r: nat)
    requires d < 10
    ensures r <= 9
    ensures !doubled ==> r == d
    ensures doubled ==> r == (2 * d) / 10 + (2 * d) % 10
  {
    if doubled then (if 2 * d > 9 then 2 * d - 9 else 2 * d) else d
  }

  /** Whether the digit at position `i` from the right (0 = rightmost) is doubled, when the
      walk doubles the rightmost digit exactly if `doubleRightmost`. */
  predicate Doubled(i: nat, doubleRightmost: bool) {
    (i % 2 == 0) == doubleRightmost
  }

  /** The `k` rightmost characters of `s` are digits. */
  predicate DigitSuffix(s: string, k: nat) {
    k <= |s| && forall i | |s| - k <= i < |s| :: IsDigit(s[i])
  }

  /** The total the walk has accumulated after visiting the `k` rightmost digits of `s`. */
  function Total(s: string, k: nat, doubleRightmost: bool): nat
    requires DigitSuffix(s, k)
  {
    if k == 0 then 0
    else Total(s, k - 1, doubleRightmost)
         + Contribution(DigitValue(s[|s| - k]), Doubled(k - 1, doubleRightmost))
  }

  /** The digit `calculate_check_digit` produces: the walk doubles the rightmost digit of the
      partial number, since that digit will sit second from the right once the check digit
      is appended. */
  function CheckDigit(p: string): (d: nat)
    requires IsDigits(p)
    ensures d < 10
  {
    (10 - Total(p, |p|, true) % 10) % 10
  }

  /** What `validate` accepts: the walk leaves the rightmost digit undoubled and the total is a
      multiple of 10. */
  predicate IsLuhnValid(s: string)
    requires IsDigits(s)
  {
    Total(s, |s|, false) % 10 == 0
  }

  /** Appending a digit shifts every old digit one position to the left, so the walk over the
      old digits flips its doubling. */
  lemma {:induction false} TotalAppend(p: string, c: char, k: nat, doubleRightmost: bool)
    requires IsDigits(p) && IsDigit(c) && k <= |p|
    ensures DigitSuffix(p + [c], k + 1)
    ensures Total(p + [c], k + 1, doubleRightmost)
         == Contribution(DigitValue(c), doubleRightmost) + Total(p, k, !doubleRightmost)
  {
    var s := p + [c];
    SuffixAppend(p, c, k);
    if k == 0 {
      assert s[|s| - 1] == c;
    } else {
      TotalAppend(p, c, k - 1, doubleRightmost);
      var dp := DigitValue(p[|p| - k]);
      assert s[|s| - (k + 1)] == p[|p| - k];
      assert Doubled(k, doubleRightmost) == Doubled(k - 1, !doubleRightmost);
      var x := Contribution(dp, Doubled(k - 1, !doubleRightmost));
      assert Total(s, k + 1, doubleRightmost) == Total(s, k, doubleRightmost) + x;
      assert Total(p, k, !doubleRightmost) == Total(p, k - 1, !doubleRightmost) + x;
    }
  }

  lemma SuffixAppend(p: string, c: char, k: nat)
    requires IsDigits(p) && IsDigit(c) && k <= |p|
    ensures DigitSuffix(p + [c], k + 1)
  {
    var s := p + [c];
    forall i | |s| - (k + 1) <= i < |s| ensures IsDigit(s[i]) {
      if i < |p| { assert s[i] == p[i]; }
    }
  }

  /** The round trip: a digit string followed by its computed check digit always validates.
      This is why the regeneration branch of `generate_card` can never be taken. */
  lemma RoundTrip(p: string)
    requires IsDigits(p)
    ensures IsDigits(p + [DigitChar(CheckDigit(p))])
    ensures IsLuhnValid(p + [DigitChar(CheckDigit(p))])
  {
    CheckDigitUnique(p, CheckDigit(p));
  }

  /** The check digit is the ONLY digit that makes `p` followed by it valid. */
  lemma CheckDigitUnique(p: string, d: nat)
    requires IsDigits(p) && d < 10
    ensures IsDigits(p + [DigitChar(d)])
    ensures IsLuhnValid(p + [DigitChar(d)]) <==> d == CheckDigit(p)
  {
    var s := p + [DigitChar(d)];
    TotalAppend(p, DigitChar(d), |p|, false);
    assert Total(s, |s|, false) == d + Total(p, |p|, true);
    CompletesToTen(d, Total(p, |p|, true));
  }

  /** The one digit that brings a total up to a multiple of 10. */
  lemma CompletesToTen(d: nat, total: nat)
    requires d < 10
    ensures (d + total) % 10 == 0 <==> d == (10 - total % 10) % 10
  {
    var m := total % 10;
    assert total == 10 * (total / 10) + m;
    assert (d + total) % 10 == (d + m) % 10;
  }

  /** `LuhnValidator.calculate_check_digit`: the loop over `reversed(card_number)`. A character
      that `int()` rejects raises, modelled as `None`. */
  method CalculateCheckDigit(p: string) returns (r: Option<char>)
    ensures r.None? <==> !IsDigits(p)
    ensures r.Some? ==> IsDigits(p) && r.value == DigitChar(CheckDigit(p))
    ensures r.Some? ==> IsDigits(p + [r.value]) && IsLuhnValid(p + [r.value])
  {
    var total := 0;
    var shouldDouble := true;
    var k := 0;
    while k < |p|
      invariant k <= |p| && DigitSuffix(p, k)
      invariant total == Total(p, k, true)
      invariant shouldDouble == Doubled(k, true)
    {
      var c := p[|p| - 1 - k];
      if !IsDigit(c) {
        return None;
      }
      var n := DigitValue(c);
      if shouldDouble {
        n := n * 2;
        if n > 9 {
          n := n - 9;
        }
      }
      total := total + n;
      shouldDouble := !shouldDouble;
      k := k + 1;
    }
    r := Some(DigitChar((10 - total % 10) % 10));
    RoundTrip(p);
  }

  /** `LuhnValidator.validate`: the same loop with `should_double` starting false. */
  method Validate(s: string) returns (r: Option<bool>)
    ensures r.None? <==> !IsDigits(s)
    ensures r.Some? ==> IsDigits(s) && (r.value <==> IsLuhnValid(s))
  {
    var total := 0;
    var shouldDouble := false;
    var k := 0;
    while k < |s|
      invariant k <= |s| && DigitSuffix(s, k)
      invariant total == Total(s, k, false)
      invariant shouldDouble == Doubled(k, false)
    {
      var c := s[|s| - 1 - k];
      if !IsDigit(c) {
        return None;
      }
      var n := DigitValue(c);
      if shouldDouble {
        n := n * 2;
        if n > 9 {
          n := n - 9;
        }
      }
      total := total + n;
      shouldDouble := !shouldDouble;
      k := k + 1;
    }
    r := Some(total % 10 == 0);
  }
}
