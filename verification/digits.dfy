/** Decimal digit strings: Python's `int()` on them, `str()` of a natural number and
    `str(n).zfill(2)`. */
module Digits {
  import opened Wrappers
  import Text

  predicate IsDigit(c: char) {
    '0' <= c <= '9'
  }

  predicate IsDigits(s: string) {
    forall i | 0 <= i < |s| :: IsDigit(s[i])
  }

  function DigitValue(c: char): (d: nat)
    requires IsDigit(c)
    ensures d < 10
  {
    c as int - '0' as int
  }

  function DigitChar(d: nat): (c: char)
    requires d < 10
    ensures IsDigit(c) && DigitValue(c) == d
  {
    ('0' as int + d) as char
  }

  /** The number a digit string denotes, most significant digit first. */
  function ValueOf(s: string): nat
    requires IsDigits(s)
  {
    if s == [] then 0 else 10 * ValueOf(s[..|s| - 1]) + DigitValue(s[|s| - 1])
  }

  /** `int(s)` where it succeeds on ASCII input: a non-empty string of digits, leading zeros
      allowed. Anything else raises `ValueError`, modelled as `None`. */
  function ParseInt(s: string): (r: Option<nat>)
    ensures r.Some? <==> s != [] && IsDigits(s)
  {
    if s != [] && IsDigits(s) then Some(ValueOf(s)) else None
  }

  /** `str(n)`: the decimal numeral of `n`, without leading zeros. */
  function Numeral(n: nat): (r: string)
    ensures IsDigits(r) && ValueOf(r) == n
    ensures 1 <= |r| && (|r| > 1 ==> r[0] != '0')
    ensures n < 10 ==> |r| == 1
    ensures 10 <= n < 100 ==> |r| == 2
    ensures 100 <= n < 1000 ==> |r| == 3
    ensures 1000 <= n < 10000 ==> |r| == 4
  {
    if n < 10 then [DigitChar(n)]
    else
      var r := Numeral(n / 10) + [DigitChar(n % 10)];
      assert r[..|r| - 1] == Numeral(n / 10);
      r
  }

  /** `str(n).zfill(2)` for `n < 100`. */
  function Pad2(n: nat): (r: string)
    requires n < 100
    ensures |r| == 2 && IsDigits(r) && ValueOf(r) == n
  {
    if n < 10 then
      var r := ['0'] + Numeral(n);
      assert r[..1] == ['0'];
      r
    else Numeral(n)
  }

  lemma DigitsAppend(a: string, b: string)
    requires IsDigits(a) && IsDigits(b)
    ensures IsDigits(a + b)
  {
    assert forall i | 0 <= i < |a + b| :: (a + b)[i] == if i < |a| then a[i] else b[i - |a|];
  }

  lemma TakeDigits(s: string, n: int)
    requires IsDigits(s)
    ensures IsDigits(Text.Take(s, n))
  {
    var t := Text.Take(s, n);
    assert forall i | 0 <= i < |t| :: t[i] == s[i];
  }

  /** Two 2-digit numerals side by side read as the first times 100 plus the second. */
  lemma ValueOfTwoPairs(a: string, b: string)
    requires IsDigits(a) && IsDigits(b) && |a| == 2 && |b| == 2
    ensures IsDigits(a + b)
    ensures ValueOf(a + b) == 100 * ValueOf(a) + ValueOf(b)
  {
    DigitsAppend(a, b);
    var s := a + b;
    assert s[..3][..2] == a && s[..3][2] == b[0] && s[3] == b[3 - 2];
    assert b[..1][..0] == [];
    assert ValueOf(s) == 10 * ValueOf(s[..3]) + DigitValue(b[1]);
    assert ValueOf(s[..3]) == 10 * ValueOf(a) + DigitValue(b[0]);
    assert ValueOf(b) == 10 * ValueOf(b[..1]) + DigitValue(b[1]);
  }
}
