/** `validate_card_entry` from scripts/data/select-random-debit-cards.py: one row of a BIN
    list (CSV) becomes an entry of the BIN registry, or is rejected. */
module DebitCards {
  import opened Wrappers
  import opened Text

  /** The CSV columns the validator reads (`type`, `brand`, `issuer`, `alpha_2`, `country`). */
  datatype Row = Row(cardType: string, brand: string, issuer: string, alpha2: string, country: string)

  /** A registry entry, with the keys `validate_card_entry` builds. */
  datatype Entry = Entry(
    scheme: string,
    cardType: string,
    brand: string,
    bank: string,
    country: string,
    countryName: string,
    length: int,
    cvvLength: int)

  /** The entry before the scheme chain: the CSV columns mapped over, with the defaults for an
      empty brand or issuer, and length 16 and CVV length 3. */
  function BaseEntry(row: Row): Entry {
    Entry(
      scheme := if row.brand != "" then RemoveChar(Lower(row.brand), ' ') else "unknown",
      cardType := Lower(row.cardType),
      brand := if row.brand != "" then row.brand else "Unknown",
      bank := if row.issuer != "" then row.issuer else "Various",
      country := row.alpha2,
      countryName := row.country,
      length := 16,
      cvvLength := 3)
  }

  /** The branches of the scheme chain. */
  datatype SchemeRule = Amex | Visa | Mastercard | Discover | Jcb | Diners | PrivateLabel

  /** The order in which the chain tries its branches. */
  const RuleOrder: seq<SchemeRule> := [Amex, Visa, Mastercard, Discover, Jcb, Diners, PrivateLabel]

  /** When a branch's condition holds of the entry built so far. */
  predicate Matches(rule: SchemeRule, e: Entry) {
    match rule
    case Amex => Contains(e.scheme, "amex") || e.scheme == "americanexpress"
    case Visa => Contains(e.scheme, "visa")
    case Mastercard => Contains(e.scheme, "mastercard") || Contains(e.scheme, "master")
    case Discover => Contains(e.scheme, "discover")
    case Jcb => Contains(e.scheme, "jcb")
    case Diners => Contains(e.scheme, "dinersclub") || Contains(e.scheme, "diners")
    case PrivateLabel => Contains(Lower(e.scheme), "private") || Contains(Lower(e.brand), "label")
  }

  /** The first rule of `rules` whose condition holds, if any. */
  function FirstMatch(rules: seq<SchemeRule>, e: Entry): (r: Option<SchemeRule>)
    ensures r.None? <==> forall i | 0 <= i < |rules| :: !Matches(rules[i], e)
    ensures r.Some? ==> exists i | 0 <= i < |rules| ::
              rules[i] == r.value && Matches(rules[i], e) && forall j | 0 <= j < i :: !Matches(rules[j], e)
  {
    if rules == [] then None
    else if Matches(rules[0], e) then Some(rules[0])
    else
      var r := FirstMatch(rules[1..], e);
      assert forall i | 1 <= i < |rules| :: rules[i] == rules[1..][i - 1];
      r
  }

  /** What a branch writes into the entry; the private-label branch keeps length and CVV
      length. */
  function ApplyRule(rule: SchemeRule, e: Entry): Entry {
    match rule
    case Amex => e.(scheme := "amex", brand := "American Express", length := 15, cvvLength := 4)
    case Visa => e.(scheme := "visa", brand := "Visa", length := 16, cvvLength := 3)
    case Mastercard => e.(scheme := "mastercard", brand := "Mastercard", length := 16, cvvLength := 3)
    case Discover => e.(scheme := "discover", brand := "Discover", length := 16, cvvLength := 3)
    case Jcb => e.(scheme := "jcb", brand := "JCB", length := 16, cvvLength := 3)
    case Diners => e.(scheme := "dinersclub", brand := "Diners Club", length := 14, cvvLength := 3)
    case PrivateLabel => e.(scheme := "unknown", brand := "Private Label")
  }

  /** The entry a debit row turns into: the base entry, rewritten by the first branch of the
      chain whose condition holds, or left alone when none does. */
  function Classify(row: Row): Entry {
    var base := BaseEntry(row);
    match FirstMatch(RuleOrder, base)
    case Some(rule) => ApplyRule(rule, base)
    case None => base
  }

  /** `not entry[field]` is false: the key exists and its value is not empty (or not 0). */
  predicate HasField(e: Entry, field: string) {
    match field
    case "scheme" => e.scheme != ""
    case "type" => e.cardType != ""
    case "brand" => e.brand != ""
    case "bank" => e.bank != ""
    case "country" => e.country != ""
    case "countryName" => e.countryName != ""
    case "length" => e.length != 0
    case "cvvLength" => e.cvvLength != 0
    case _ => false
  }

  /** The if/elif chain tries the rules in `RuleOrder`. */
  lemma FirstMatchInOrder(e: Entry)
    ensures FirstMatch(RuleOrder, e) ==
      if Matches(Amex, e) then Some(Amex)
      else if Matches(Visa, e) then Some(Visa)
      else if Matches(Mastercard, e) then Some(Mastercard)
      else if Matches(Discover, e) then Some(Discover)
      else if Matches(Jcb, e) then Some(Jcb)
      else if Matches(Diners, e) then Some(Diners)
      else if Matches(PrivateLabel, e) then Some(PrivateLabel)
      else None
  {
    var rs := RuleOrder;
    assert rs[6..][1..] == [];
    assert rs[5..][1..] == rs[6..] && rs[4..][1..] == rs[5..] && rs[3..][1..] == rs[4..];
    assert rs[2..][1..] == rs[3..] && rs[1..][1..] == rs[2..];
    assert FirstMatch(rs[6..], e) == if Matches(PrivateLabel, e) then Some(PrivateLabel) else None;
    assert FirstMatch(rs[5..], e) == if Matches(Diners, e) then Some(Diners) else FirstMatch(rs[6..], e);
    assert FirstMatch(rs[4..], e) == if Matches(Jcb, e) then Some(Jcb) else FirstMatch(rs[5..], e);
    assert FirstMatch(rs[3..], e) == if Matches(Discover, e) then Some(Discover) else FirstMatch(rs[4..], e);
    assert FirstMatch(rs[2..], e) == if Matches(Mastercard, e) then Some(Mastercard) else FirstMatch(rs[3..], e);
    assert FirstMatch(rs[1..], e) == if Matches(Visa, e) then Some(Visa) else FirstMatch(rs[2..], e);
  }

  /** `validate_card_entry(row, required_fields)`: reject non-debit rows, build the entry and
      rewrite it through the scheme chain, then reject it if a required field is missing or
      empty or the country code is not two characters long. */
  method ValidateCardEntry(row: Row, requiredFields: set<string>) returns (isValid: bool, entry: Option<Entry>)
    ensures isValid <==> entry.Some?
    ensures Upper(row.cardType) != "DEBIT" ==> !isValid
    ensures isValid <==>
      && Upper(row.cardType) == "DEBIT"
      && (forall field | field in requiredFields :: HasField(Classify(row), field))
      && |row.alpha2| == 2
    ensures isValid ==> entry.value == Classify(row)
    ensures isValid ==> entry.value.cardType == "debit" && |entry.value.country| == 2
  {
    if Upper(row.cardType) != "DEBIT" {
      return false, None;
    }

    var e := BaseEntry(row);
    FirstMatchInOrder(e);
    if Contains(e.scheme, "amex") || e.scheme == "americanexpress" {
      e := e.(scheme := "amex", brand := "American Express", length := 15, cvvLength := 4);
    } else if Contains(e.scheme, "visa") {
      e := e.(scheme := "visa", brand := "Visa", length := 16, cvvLength := 3);
    } else if Contains(e.scheme, "mastercard") || Contains(e.scheme, "master") {
      e := e.(scheme := "mastercard", brand := "Mastercard", length := 16, cvvLength := 3);
    } else if Contains(e.scheme, "discover") {
      e := e.(scheme := "discover", brand := "Discover", length := 16, cvvLength := 3);
    } else if Contains(e.scheme, "jcb") {
      e := e.(scheme := "jcb", brand := "JCB", length := 16, cvvLength := 3);
    } else if Contains(e.scheme, "dinersclub") || Contains(e.scheme, "diners") {
      e := e.(scheme := "dinersclub", brand := "Diners Club", length := 14, cvvLength := 3);
    } else if Contains(Lower(e.scheme), "private") || Contains(Lower(e.brand), "label") {
      e := e.(scheme := "unknown", brand := "Private Label");
    }
    assert e == Classify(row);

    var remaining := requiredFields;
    while remaining != {}
      invariant remaining <= requiredFields
      invariant forall field | field in requiredFields - remaining :: HasField(e, field)
      decreases |remaining|
    {
      var field :| field in remaining;
      if !HasField(e, field) {
        return false, None;
      }
      remaining := remaining - {field};
    }

    if e.country == "" || |e.country| != 2 {
      return false, None;
    }
    DebitLowersToDebit(row.cardType);
    return true, Some(e);
  }

  /** A type that upper-cases to "DEBIT" lower-cases to "debit" (with ASCII case mapping). */
  lemma DebitLowersToDebit(t: string)
    requires Upper(t) == "DEBIT"
    ensures Lower(t) == "debit"
  {
    forall i | 0 <= i < 5 ensures Lower(t)[i] == "debit"[i] {
      assert UpperChar(t[i]) == "DEBIT"[i];
    }
  }

  /** Every classified entry has a brand length of 14, 15 or 16 and a CVV length of 3 or 4;
      the scheme is "amex" exactly when the length is 15, exactly when the CVV length is 4;
      country, country name, bank and type come straight from the row. */
  lemma ClassifiedShape(row: Row)
    ensures var e := Classify(row);
      && e.length in {14, 15, 16}
      && e.cvvLength in {3, 4}
      && (e.scheme == "amex" <==> e.length == 15)
      && (e.length == 15 <==> e.cvvLength == 4)
      && e.country == row.alpha2
      && e.countryName == row.country
      && e.bank == (if row.issuer != "" then row.issuer else "Various")
      && e.cardType == Lower(row.cardType)
  {
    var base := BaseEntry(row);
    if FirstMatch(RuleOrder, base).None? {
      assert !Matches(RuleOrder[0], base);
    }
  }

  /** Only the first matching branch applies: a later branch's condition holding as well
      changes nothing. */
  lemma FirstBranchWins(row: Row, i: nat)
    requires i < |RuleOrder| && Matches(RuleOrder[i], BaseEntry(row))
    requires forall j | 0 <= j < i :: !Matches(RuleOrder[j], BaseEntry(row))
    ensures Classify(row) == ApplyRule(RuleOrder[i], BaseEntry(row))
  {
    var base := BaseEntry(row);
    var hit := FirstMatch(RuleOrder, base);
    var k :| 0 <= k < |RuleOrder| && RuleOrder[k] == hit.value && Matches(RuleOrder[k], base)
             && forall j | 0 <= j < k :: !Matches(RuleOrder[j], base);
    assert k == i;
  }
}
