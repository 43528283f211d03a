/** `CardGenerator` from scripts/data/card_generator.py: a card number assembled as
    BIN + account segment + Luhn check digit, its display grouping, and a CVV derived from the
    number and the expiry date by a fixed linear-congruential formula.
    The random choices of the source (the Markov-chain middle digits, the `randint(10, 99)`
    sequence number, the expiry month and year) and the MD5 digest of the bank name are
    parameters, so every property below holds for every choice. */
module CardGenerator {
  import opened Wrappers
  import opened Text
  import opened Digits
  import opened Luhn
  import opened BinDatabase

  /** `hash_bank_name`: 0 for an empty or "Unknown" bank, otherwise the first eight hex digits
      of the MD5 digest, read as a number (`md5Prefix`), modulo 100. */
  function BankSeed(bank: string, md5Prefix: string -> nat): (r: nat)
    ensures r < 100
    ensures bank == "" || bank == "Unknown" ==> r == 0
    ensures bank != "" && bank != "Unknown" ==> r == md5Prefix(bank) % 100
  {
    if bank == "" || bank == "Unknown" then 0 else md5Prefix(bank) % 100
  }

  /** How many Markov digits `range(length - 4)` asks for. */
  function MiddleCount(length: int): nat {
    if length > 4 then length - 4 else 0
  }

  /** `generate_account_segment`: a 2-digit branch code from the BIN's last four digits and the
      bank seed, then one caller-chosen digit per middle position, then the 2-digit sequence
      number. `int()` of a non-numeric BIN tail raises, modelled as `None`. */
  method GenerateAccountSegment(length: int, bin: string, bank: string, md5Prefix: string -> nat,
                                middle: seq<nat>, sequence: nat)
    returns (r: Option<string>)
    requires |middle| == MiddleCount(length)
    requires forall i | 0 <= i < |middle| :: middle[i] < 10
    requires 10 <= sequence <= 99
    ensures r == AccountSegment(bin, bank, md5Prefix, middle, sequence)
  {
    var segment := "";
    var bankSeed := BankSeed(bank, md5Prefix);
    var binLast4 := ParseInt(TakeLast(bin, 4));
    if binLast4.None? {
      return None;
    }
    var branchCode := (binLast4.value + bankSeed) % 100;
    segment := segment + Pad2(branchCode);
    var i := 0;
    while i < MiddleCount(length)
      invariant 0 <= i <= |middle|
      invariant segment == Pad2(branchCode) + DigitString(middle[..i])
    {
      DigitStringStep(middle, i);
      segment := segment + [DigitChar(middle[i])];
      i := i + 1;
    }
    assert middle[..i] == middle;
    segment := segment + Numeral(sequence);
    r := Some(segment);
  }

  /** The segment `generate_account_segment` builds: the zero-padded branch code, the middle
      digits, the sequence number; `None` where `int()` of the BIN's last four characters
      raises. */
  function AccountSegment(bin: string, bank: string, md5Prefix: string -> nat,
                          middle: seq<nat>, sequence: nat): Option<string>
    requires forall i | 0 <= i < |middle| :: middle[i] < 10
  {
    match ParseInt(TakeLast(bin, 4))
    case None => None
    case Some(last4) =>
      Some(Pad2((last4 + BankSeed(bank, md5Prefix)) % 100) + DigitString(middle) + Numeral(sequence))
  }

  /** What `generate_account_segment` returns: nothing exactly when `int()` of the BIN's last
      four characters fails; otherwise a digit string of length 4 plus the number of middle
      digits, whose first two digits read `(int(last4) + seed) % 100`, whose middle digits
      are the chosen ones in order, and whose last two read the sequence number, with a
      non-zero penultimate digit. */
  lemma AccountSegmentShape(bin: string, bank: string, md5Prefix: string -> nat,
                            middle: seq<nat>, sequence: nat)
    requires forall i | 0 <= i < |middle| :: middle[i] < 10
    requires 10 <= sequence <= 99
    ensures var r := AccountSegment(bin, bank, md5Prefix, middle, sequence);
      && (r.None? <==> ParseInt(TakeLast(bin, 4)).None?)
      && (r.Some? ==>
            && IsDigits(r.value) && |r.value| == 4 + |middle|
            && ValueOf(r.value[..2]) == (ValueOf(TakeLast(bin, 4)) + BankSeed(bank, md5Prefix)) % 100
            && (forall i | 0 <= i < |middle| :: r.value[2 + i] == DigitChar(middle[i]))
            && ValueOf(r.value[|r.value| - 2..]) == sequence && r.value[|r.value| - 2] != '0')
  {
    match ParseInt(TakeLast(bin, 4))
    case None =>
    case Some(last4) =>
      SegmentLayout((last4 + BankSeed(bank, md5Prefix)) % 100, middle, sequence);
  }

  /** The characters of a sequence of decimal digits. */
  function DigitString(ds: seq<nat>): (r: string)
    requires forall i | 0 <= i < |ds| :: ds[i] < 10
    ensures |r| == |ds| && IsDigits(r)
    ensures forall i | 0 <= i < |ds| :: r[i] == DigitChar(ds[i])
  {
    seq(|ds|, i requires 0 <= i < |ds| => DigitChar(ds[i]))
  }

  lemma DigitStringStep(ds: seq<nat>, i: nat)
    requires i < |ds| && forall j | 0 <= j < |ds| :: ds[j] < 10
    ensures DigitString(ds[..i + 1]) == DigitString(ds[..i]) + [DigitChar(ds[i])]
  {
    assert ds[..i + 1] == ds[..i] + [ds[i]];
  }

  /** Where the branch code, the middle digits and the sequence number sit in the segment. */
  lemma SegmentLayout(code: nat, middle: seq<nat>, sequence: nat)
    requires code < 100 && 10 <= sequence <= 99
    requires forall i | 0 <= i < |middle| :: middle[i] < 10
    ensures var s := Pad2(code) + DigitString(middle) + Numeral(sequence);
      IsDigits(s) && |s| == 4 + |middle| && ValueOf(s[..2]) == code
      && (forall j | 0 <= j < |middle| :: s[2 + j] == DigitChar(middle[j]))
      && ValueOf(s[|s| - 2..]) == sequence && s[|s| - 2] != '0'
  {
    var head, tail := Pad2(code), Numeral(sequence);
    var s := head + DigitString(middle) + tail;
    DigitsAppend(head, DigitString(middle));
    DigitsAppend(head + DigitString(middle), tail);
    assert s[..2] == head;
    assert s[|s| - 2..] == tail;
  }

  /** The "MM/YY" string `generate_expiry_date` builds from its month and expiry year. */
  function FormatExpiry(month: int, year: nat): (r: string)
    requires 1 <= month <= 12
    ensures |r| == 5 && r[2] == '/'
    ensures IsDigits(r[..2]) && ValueOf(r[..2]) == month
    ensures IsDigits(r[3..]) && ValueOf(r[3..]) == year % 100
  {
    var r := Pad2(month) + "/" + Pad2(year % 100);
    assert r[..2] == Pad2(month) && r[3..] == Pad2(year % 100);
    r
  }

  /** What `int(expiry_date.replace('/', ''))` reads from a formatted expiry: MMYY. */
  lemma ExpiryNumber(month: int, year: nat)
    requires 1 <= month <= 12
    ensures ParseInt(RemoveChar(FormatExpiry(month, year), '/')) == Some(100 * month + year % 100)
  {
    var mm, yy := Pad2(month), Pad2(year % 100);
    assert RemoveChar(FormatExpiry(month, year), '/') == mm + yy by {
      assert FormatExpiry(month, year) == mm + ['/'] + yy;
      RemoveSeparator(mm, yy, '/');
      RemoveAbsentChar(mm, '/');
      RemoveAbsentChar(yy, '/');
    }
    assert ValueOf(mm + yy) == 100 * month + year % 100 by {
      ValueOfTwoPairs(mm, yy);
    }
  }

  /** The display grouping of `generate_card`: 4-6-5 for a 15-digit brand length, 4-4-4-rest
      otherwise. */
  function FormatNumber(number: string, cardLength: int): string {
    if cardLength == 15 then
      Take(number, 4) + " " + Slice(number, 4, 10) + " " + Drop(number, 10)
    else
      Take(number, 4) + " " + Slice(number, 4, 8) + " " + Slice(number, 8, 12) + " " + Drop(number, 12)
  }

  /** Deleting the spaces from the display form gives back the card number, and the display
      form has two separators for a 15-digit brand length and three otherwise. */
  lemma FormatNumberRoundTrip(number: string, cardLength: int)
    requires ' ' !in number
    ensures RemoveChar(FormatNumber(number, cardLength), ' ') == number
    ensures |FormatNumber(number, cardLength)| == |number| + (if cardLength == 15 then 2 else 3)
  {
    if cardLength == 15 {
      var a, b, c := Take(number, 4), Slice(number, 4, 10), Drop(number, 10);
      SplitAt(number, 4, 10);
      RemoveSeparator(a + " " + b, c, ' ');
      RemoveSeparator(a, b, ' ');
      RemoveAbsentChar(a, ' ');
      RemoveAbsentChar(b, ' ');
      RemoveAbsentChar(c, ' ');
      assert RemoveChar(FormatNumber(number, cardLength), ' ') == a + b + c;
    } else {
      var a, b, c, d := Take(number, 4), Slice(number, 4, 8), Slice(number, 8, 12), Drop(number, 12);
      SplitAt(number, 4, 8);
      SplitAt(Take(number, 12), 8, 12);
      assert Take(number, 8) == Take(Take(number, 12), 8);
      assert Take(number, 12) + d == number;
      RemoveSeparator(a + " " + b + " " + c, d, ' ');
      RemoveSeparator(a + " " + b, c, ' ');
      RemoveSeparator(a, b, ' ');
      RemoveAbsentChar(a, ' ');
      RemoveAbsentChar(b, ' ');
      RemoveAbsentChar(c, ' ');
      RemoveAbsentChar(d, ' ');
      assert RemoveChar(FormatNumber(number, cardLength), ' ') == a + b + c + d;
    }
  }

  /** The values `generate_cvv` rejects on the first try: three equal leading digits. */
  const WeakPatterns: seq<string> := ["111", "222", "333", "444", "555", "666", "777", "888", "999", "000"]

  predicate IsWeak(cvv: string) {
    Take(cvv, 3) in WeakPatterns
  }

  /** The linear-congruential step: `(seed * 9301 + 49297) % 233280` where the seed is the
      number's last four digits plus the expiry read as MMYY. */
  function Pseudo(seed: nat): (r: nat)
    ensures r < 233280
  {
    (seed * 9301 + 49297) % 233280
  }

  /** One CVV candidate from a pseudo-random value: four digits for CVV length 4, three for
      any other length. */
  function Candidate(pseudo: nat, cvvLength: int): (r: string)
    ensures IsDigits(r)
    ensures cvvLength == 4 ==> |r| == 4 && 1000 <= ValueOf(r) <= 9999
    ensures cvvLength != 4 ==> |r| == 3 && 100 <= ValueOf(r) <= 999
  {
    if cvvLength == 4 then Numeral(pseudo % 9000 + 1000) else Numeral(pseudo % 900 + 100)
  }

  function Offset(cvvLength: int): nat {
    if cvvLength == 4 then 1234 else 123
  }

  /** The value `generate_cvv` settles on before cutting it to `cvv_length` characters: the
      first candidate, or, when that one is weak, the candidate for `pseudo + offset`, which
      is not checked again. */
  function FixedCandidate(pseudo: nat, cvvLength: int): (r: string)
    ensures IsDigits(r)
    ensures cvvLength == 4 ==> |r| == 4 && 1000 <= ValueOf(r) <= 9999
    ensures cvvLength != 4 ==> |r| == 3 && 100 <= ValueOf(r) <= 999 && r == Numeral(ValueOf(r))
  {
    var first := Candidate(pseudo, cvvLength);
    var p := if IsWeak(first) then pseudo + Offset(cvvLength) else pseudo;
    assert cvvLength != 4 ==> Candidate(p, cvvLength) == Numeral(p % 900 + 100);
    Candidate(p, cvvLength)
  }

  /** `generate_cvv(card_number, expiry_date, cvv_length)`: the CVV for the number's last four
      digits plus the expiry read as MMYY. `int()` raises on a card-number tail or an expiry
      that is not a digit string, modelled as `None`. */
  function GenerateCvv(number: string, expiry: string, cvvLength: int): Option<string> {
    var last4 := ParseInt(TakeLast(number, 4));
    var mmyy := ParseInt(RemoveChar(expiry, '/'));
    if last4.None? || mmyy.None? then None else Some(CvvFromSeed(last4.value + mmyy.value, cvvLength))
  }

  /** The fixed-up candidate for the seed's pseudo-random value, cut to `cvv_length`
      characters. */
  function CvvFromSeed(seed: nat, cvvLength: int): string {
    Take(FixedCandidate(Pseudo(seed), cvvLength), cvvLength)
  }

  /** `generate_cvv` fails exactly when one of its two `int()` calls does. */
  lemma CvvFailure(number: string, expiry: string, cvvLength: int)
    ensures GenerateCvv(number, expiry, cvvLength).None?
        <==> ParseInt(TakeLast(number, 4)).None? || ParseInt(RemoveChar(expiry, '/')).None?
  {
  }

  /** What `generate_cvv` returns when it succeeds: digits only, four of them in 1000..9999
      for CVV length 4, three in 100..999 for CVV length 3, and for any other length a prefix
      (as Python's slice cuts it) of a three-digit value in 100..999. */
  lemma CvvShape(number: string, expiry: string, cvvLength: int)
    requires GenerateCvv(number, expiry, cvvLength).Some?
    ensures var cvv := GenerateCvv(number, expiry, cvvLength).value;
      IsDigits(cvv)
      && (cvvLength == 4 ==> |cvv| == 4 && 1000 <= ValueOf(cvv) <= 9999)
      && (cvvLength == 3 ==> |cvv| == 3 && 100 <= ValueOf(cvv) <= 999)
      && (cvvLength != 4 ==> exists v :: 100 <= v <= 999 && cvv == Take(Numeral(v), cvvLength))
  {
    var seed := ParseInt(TakeLast(number, 4)).value + ParseInt(RemoveChar(expiry, '/')).value;
    var cvv := GenerateCvv(number, expiry, cvvLength).value;
    assert cvv == CvvFromSeed(seed, cvvLength);
    var full := FixedCandidate(Pseudo(seed), cvvLength);
    TakeDigits(full, cvvLength);
    if cvvLength != 4 {
      var v := ValueOf(full);
      assert 100 <= v <= 999 && cvv == Take(Numeral(v), cvvLength);
    }
  }

  /** Three equal leading digits is what the weak-pattern list means. */
  lemma WeakMeansTripleDigit(cvv: string)
    requires IsDigits(cvv) && |cvv| >= 3
    ensures IsWeak(cvv) <==> cvv[0] == cvv[1] == cvv[2]
  {
    var t := Take(cvv, 3);
    assert t == [cvv[0], cvv[1], cvv[2]];
    if cvv[0] == cvv[1] == cvv[2] {
      var d := DigitValue(cvv[0]);
      assert t == WeakPatterns[(d + 9) % 10];
    }
  }

  /** The single-pass fix-up: a first candidate with three equal leading digits is replaced
      by the candidate for `pseudo` plus 1234 (length 4) or 123 (otherwise), which is always a
      different value; any other first candidate is kept. */
  lemma FixUpReplacesWeak(pseudo: nat, cvvLength: int)
    ensures var first := Candidate(pseudo, cvvLength);
      (first[0] == first[1] == first[2] ==>
         FixedCandidate(pseudo, cvvLength) == Candidate(pseudo + Offset(cvvLength), cvvLength)
         && FixedCandidate(pseudo, cvvLength) != first)
      && (!(first[0] == first[1] == first[2]) ==> FixedCandidate(pseudo, cvvLength) == first)
  {
    var first := Candidate(pseudo, cvvLength);
    WeakMeansTripleDigit(first);
    if IsWeak(first) {
      CandidateShift(pseudo, cvvLength);
    }
  }

  /** Shifting the pseudo-random value by the offset always changes the candidate. */
  lemma CandidateShift(pseudo: nat, cvvLength: int)
    ensures Candidate(pseudo + Offset(cvvLength), cvvLength) != Candidate(pseudo, cvvLength)
  {
    if cvvLength == 4 {
      assert (pseudo + 1234) % 9000 != pseudo % 9000;
      assert ValueOf(Numeral((pseudo + 1234) % 9000 + 1000)) != ValueOf(Numeral(pseudo % 9000 + 1000));
    } else {
      assert (pseudo + 123) % 900 != pseudo % 900;
      assert ValueOf(Numeral((pseudo + 123) % 900 + 100)) != ValueOf(Numeral(pseudo % 900 + 100));
    }
  }

  /** The fix-up is not re-checked, so a weak CVV can still come out: any number ending in
      0114 with expiry "12/28" gives 999 first and 222 after the fix-up. */
  lemma FixUpCanStayWeak(number: string)
    requires TakeLast(number, 4) == "0114"
    ensures GenerateCvv(number, "12/28", 3) == Some("222")
    ensures IsWeak("222")
  {
    ExampleInputs();
    ExampleSeed();
  }

  lemma ExampleSeed()
    ensures CvvFromSeed(114 + 1228, 3) == "222"
  {
    ExampleCandidates();
    assert Pseudo(114 + 1228) == 167399;
    assert FixedCandidate(167399, 3) == "222";
  }

  lemma ExampleInputs()
    ensures ParseInt("0114") == Some(114)
    ensures ParseInt(RemoveChar("12/28", '/')) == Some(1228)
  {
    ExampleTail();
    ExampleExpiry();
  }

  lemma ExampleTail()
    ensures ParseInt("0114") == Some(114)
  {
    assert "0114"[..3] == "011" && "011"[..2] == "01" && "01"[..1] == "0" && "0"[..0] == "";
    assert ValueOf("0") == 0;
    assert ValueOf("01") == 1;
    assert ValueOf("011") == 11;
    assert ValueOf("0114") == 114;
  }

  lemma ExampleExpiry()
    ensures ParseInt(RemoveChar("12/28", '/')) == Some(1228)
  {
    assert RemoveChar("12/28", '/') == "1228";
    assert "1228"[..3] == "122" && "122"[..2] == "12" && "12"[..1] == "1" && "1"[..0] == "";
    assert ValueOf("1") == 1;
    assert ValueOf("12") == 12;
    assert ValueOf("122") == 122;
    assert ValueOf("1228") == 1228;
  }

  lemma ExampleCandidates()
    ensures Candidate(167399, 3) == "999" && IsWeak("999")
    ensures Candidate(167399 + 123, 3) == "222" && IsWeak("222")
  {
    assert Numeral(999) == "999";
    assert Take("999", 3) == WeakPatterns[8];
    assert Numeral(222) == "222";
    assert Take("222", 3) == WeakPatterns[1];
  }



  /** The card record `generate_card` returns. */
  datatype Card = Card(
    number: string,
    formatted: string,
    expiry: string,
    cvv: string,
    brand: string,
    bank: string,
    country: string,
    countryName: string)

  /** The brand length `generate_card` uses: the profile's, 16 when it has none. */
  function CardLength(profile: Profile): int {
    profile.length.GetOr(16)
  }

  /** `card_length - len(bin_code) - 1`: the account digits left between BIN and check digit. */
  function AccountLength(db: Registry, bin: string): int {
    CardLength(DetectCardBrand(db, bin)) - |bin| - 1
  }

  /** The number `generate_card` assembles from a digit BIN and an account segment of the
      length `generate_account_segment` gives: BIN, segment, check digit. */
  lemma AssembledNumber(bin: string, segment: string, cardLength: int)
    requires IsDigits(bin + segment)
    requires |segment| == 4 + MiddleCount(cardLength - |bin| - 1)
    ensures var number := bin + segment + [DigitChar(CheckDigit(bin + segment))];
      && IsDigits(bin) && IsDigits(number) && ' ' !in number
      && StartsWith(number, bin)
      && number[..|number| - 1] == bin + segment
      && IsLuhnValid(number)
      && |number| == (if cardLength >= |bin| + 5 then cardLength else |bin| + 5)
      && ParseInt(TakeLast(number, 4)).Some?
  {
    var p := bin + segment;
    var number := p + [DigitChar(CheckDigit(p))];
    RoundTrip(p);
    assert IsDigits(bin) by {
      assert forall i | 0 <= i < |bin| :: bin[i] == p[i];
    }
    assert ' ' !in number by {
      forall i | 0 <= i < |number| ensures number[i] != ' ' {
        assert IsDigit(number[i]);
      }
    }
    assert number[..|bin|] == bin;
    assert number[..|number| - 1] == p;
    assert ParseInt(TakeLast(number, 4)).Some? by {
      assert forall i | 0 <= i < 4 :: TakeLast(number, 4)[i] == number[|number| - 4 + i];
    }
  }

  /** `generate_card(bin_code)` for one choice of the random inputs: `middle` are the Markov
      digits, `sequence` the `randint(10, 99)` draw, `month` and `expiryYear` what
      `generate_expiry_date` picked. `int()` raising (on the BIN's last four characters, in
      the check-digit walk or in `generate_cvv`) is modelled as `None`. An over-long BIN is
      not an error: the number then comes out longer than the brand length. */
  function CardOf(db: Registry, bin: string, md5Prefix: string -> nat, middle: seq<nat>,
                  sequence: nat, month: int, expiryYear: nat): Option<Card>
    requires forall i | 0 <= i < |middle| :: middle[i] < 10
    requires 1 <= month <= 12
  {
    var profile := DetectCardBrand(db, bin);
    var cardLength := CardLength(profile);
    var bank := profile.bank.GetOr("Unknown");
    match AccountSegment(bin, bank, md5Prefix, middle, sequence)
    case None => None
    case Some(segment) =>
      if !IsDigits(bin + segment) then None
      else
        var number := bin + segment + [DigitChar(CheckDigit(bin + segment))];
        var expiry := FormatExpiry(month, expiryYear);
        var cvv := GenerateCvv(number, expiry, profile.cvvLength.GetOr(3));
        if cvv.None? then None
        else Some(Card(number, FormatNumber(number, cardLength), expiry, cvv.value,
                       profile.brand.GetOr("Unknown"), bank,
                       profile.country.GetOr("US"), profile.countryName.GetOr("United States")))
  }

  /** `generate_card` fails exactly when the BIN is empty or holds a non-digit: with a digit
      BIN neither the check-digit walk nor `generate_cvv` can raise. */
  lemma CardFailure(db: Registry, bin: string, md5Prefix: string -> nat, middle: seq<nat>,
                    sequence: nat, month: int, expiryYear: nat)
    requires |middle| == MiddleCount(AccountLength(db, bin))
    requires forall i | 0 <= i < |middle| :: middle[i] < 10
    requires 10 <= sequence <= 99
    requires 1 <= month <= 12
    ensures CardOf(db, bin, md5Prefix, middle, sequence, month, expiryYear).None?
        <==> bin == [] || !IsDigits(bin)
  {
    if bin != [] && IsDigits(bin) {
      CardOfDigitBin(db, bin, md5Prefix, middle, sequence, month, expiryYear);
    } else {
      CardOfBadBin(db, bin, md5Prefix, middle, sequence, month, expiryYear);
    }
  }

  lemma CardOfDigitBin(db: Registry, bin: string, md5Prefix: string -> nat, middle: seq<nat>,
                       sequence: nat, month: int, expiryYear: nat)
    requires |middle| == MiddleCount(AccountLength(db, bin))
    requires forall i | 0 <= i < |middle| :: middle[i] < 10
    requires 10 <= sequence <= 99
    requires 1 <= month <= 12
    requires bin != [] && IsDigits(bin)
    ensures CardOf(db, bin, md5Prefix, middle, sequence, month, expiryYear).Some?
  {
    var profile := DetectCardBrand(db, bin);
    var bank := profile.bank.GetOr("Unknown");
    SegmentOfDigitBin(bin, bank, md5Prefix, middle, sequence);
    var segment := AccountSegment(bin, bank, md5Prefix, middle, sequence).value;
    CvvOfAssembled(bin, segment, CardLength(profile), month, expiryYear, profile.cvvLength.GetOr(3));
  }

  lemma CardOfBadBin(db: Registry, bin: string, md5Prefix: string -> nat, middle: seq<nat>,
                     sequence: nat, month: int, expiryYear: nat)
    requires forall i | 0 <= i < |middle| :: middle[i] < 10
    requires 1 <= month <= 12
    requires bin == [] || !IsDigits(bin)
    ensures CardOf(db, bin, md5Prefix, middle, sequence, month, expiryYear).None?
  {
    var profile := DetectCardBrand(db, bin);
    var segment := AccountSegment(bin, profile.bank.GetOr("Unknown"), md5Prefix, middle, sequence);
    if bin == [] {
      assert TakeLast(bin, 4) == [];
    } else if segment.Some? {
      var k :| 0 <= k < |bin| && !IsDigit(bin[k]);
      assert (bin + segment.value)[k] == bin[k];
    }
  }

  /** A non-empty digit BIN always yields an account segment, and BIN plus segment is all
      digits. */
  lemma SegmentOfDigitBin(bin: string, bank: string, md5Prefix: string -> nat,
                          middle: seq<nat>, sequence: nat)
    requires bin != [] && IsDigits(bin)
    requires forall i | 0 <= i < |middle| :: middle[i] < 10
    requires 10 <= sequence <= 99
    ensures var segment := AccountSegment(bin, bank, md5Prefix, middle, sequence);
      segment.Some? && |segment.value| == 4 + |middle| && IsDigits(bin + segment.value)
  {
    var t := TakeLast(bin, 4);
    assert IsDigits(t) by {
      assert forall i | 0 <= i < |t| :: t[i] == bin[|bin| - |t| + i];
    }
    AccountSegmentShape(bin, bank, md5Prefix, middle, sequence);
    DigitsAppend(bin, AccountSegment(bin, bank, md5Prefix, middle, sequence).value);
  }

  /** `generate_cvv` cannot raise on an assembled number and a formatted expiry. */
  lemma CvvOfAssembled(bin: string, segment: string, cardLength: int, month: int, expiryYear: nat,
                       cvvLength: int)
    requires IsDigits(bin + segment) && |segment| == 4 + MiddleCount(cardLength - |bin| - 1)
    requires 1 <= month <= 12
    ensures GenerateCvv(bin + segment + [DigitChar(CheckDigit(bin + segment))],
                        FormatExpiry(month, expiryYear), cvvLength).Some?
  {
    AssembledNumber(bin, segment, cardLength);
    ExpiryNumber(month, expiryYear);
  }

  /** What a generated card holds: the number is the BIN, the account segment and the Luhn
      check digit, so it starts with the BIN, validates and has length
      `max(card_length, len(bin) + 5)`; the display form is the 4-6-5 or 4-4-4-rest grouping
      of that number, and gives it back with the spaces removed; the CVV is `generate_cvv` of
      number, expiry and CVV length; the remaining fields are the profile's, with the
      defaults of `generate_card`. */
  lemma CardShape(db: Registry, bin: string, md5Prefix: string -> nat, middle: seq<nat>,
                  sequence: nat, month: int, expiryYear: nat)
    requires |middle| == MiddleCount(AccountLength(db, bin))
    requires forall i | 0 <= i < |middle| :: middle[i] < 10
    requires 10 <= sequence <= 99
    requires 1 <= month <= 12
    requires CardOf(db, bin, md5Prefix, middle, sequence, month, expiryYear).Some?
    ensures
      var card := CardOf(db, bin, md5Prefix, middle, sequence, month, expiryYear).value;
      var profile := DetectCardBrand(db, bin);
      var cardLength := CardLength(profile);
      var segment := AccountSegment(bin, profile.bank.GetOr("Unknown"), md5Prefix, middle, sequence);
      && segment.Some?
      && card.number == bin + segment.value + [DigitChar(CheckDigit(bin + segment.value))]
      && IsDigits(card.number)
      && StartsWith(card.number, bin)
      && IsLuhnValid(card.number)
      && |card.number| == (if cardLength >= |bin| + 5 then cardLength else |bin| + 5)
      && card.formatted == FormatNumber(card.number, cardLength)
      && RemoveChar(card.formatted, ' ') == card.number
      && |card.formatted| == |card.number| + (if cardLength == 15 then 2 else 3)
      && card.expiry == FormatExpiry(month, expiryYear)
      && GenerateCvv(card.number, card.expiry, profile.cvvLength.GetOr(3)) == Some(card.cvv)
      && card.brand == profile.brand.GetOr("Unknown")
      && card.bank == profile.bank.GetOr("Unknown")
      && card.country == profile.country.GetOr("US")
      && card.countryName == profile.countryName.GetOr("United States")
  {
    var profile := DetectCardBrand(db, bin);
    var cardLength := CardLength(profile);
    var segment := AccountSegment(bin, profile.bank.GetOr("Unknown"), md5Prefix, middle, sequence);
    var last4 := ParseInt(TakeLast(bin, 4)).value;
    SegmentLayout((last4 + BankSeed(profile.bank.GetOr("Unknown"), md5Prefix)) % 100, middle, sequence);
    AssembledNumber(bin, segment.value, cardLength);
    var number := bin + segment.value + [DigitChar(CheckDigit(bin + segment.value))];
    FormatNumberRoundTrip(number, cardLength);
  }

  /** The imperative `generate_card`: look the brand up, build the account segment, compute
      and append the check digit, validate, then format and derive expiry and CVV. */
  method GenerateCard(db: Registry, bin: string, md5Prefix: string -> nat, middle: seq<nat>,
                      sequence: nat, month: int, expiryYear: nat)
    returns (r: Option<Card>)
    requires |middle| == MiddleCount(AccountLength(db, bin))
    requires forall i | 0 <= i < |middle| :: middle[i] < 10
    requires 10 <= sequence <= 99
    requires 1 <= month <= 12
    ensures r == CardOf(db, bin, md5Prefix, middle, sequence, month, expiryYear)
  {
    var profile := DetectCardBrand(db, bin);
    var cardLength := profile.length.GetOr(16);
    var cvvLength := profile.cvvLength.GetOr(3);
    var bankName := profile.bank.GetOr("Unknown");

    var accountLength := cardLength - |bin| - 1;
    var segment := GenerateAccountSegment(accountLength, bin, bankName, md5Prefix, middle, sequence);
    if segment.None? {
      return None;
    }
    var withoutCheck := bin + segment.value;
    var check := CalculateCheckDigit(withoutCheck);
    if check.None? {
      return None;
    }
    var number := withoutCheck + [check.value];

    var valid := Validate(number);
    if valid != Some(true) {
      // The regeneration branch of `generate_card`: unreachable by Luhn.RoundTrip.
      assert false;
    }
    var expiry := FormatExpiry(month, expiryYear);
    var cvv := GenerateCvv(number, expiry, cvvLength);
    if cvv.None? {
      return None;
    }
    var formatted := FormatNumber(number, cardLength);
    r := Some(Card(number, formatted, expiry, cvv.value,
                   profile.brand.GetOr("Unknown"), bankName,
                   profile.country.GetOr("US"), profile.countryName.GetOr("United States")));
  }
}
