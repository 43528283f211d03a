/** `BINDatabase` from scripts/data/card_generator.py: brand resolution of a BIN (bank
    identification number) prefix against a registry loaded once from JSON, falling back to
    static numbering rules. The registry is the immutable `bins` dictionary; a failed load
    leaves it empty. */
module BinDatabase {
  import opened Wrappers
  import opened Text

  /** One registry entry (or a rule result). Every field is optional because the code reads
      them with `dict.get(key, default)`. */
  datatype Profile = Profile(
    brand: Option<string>,
    length: Option<int>,
    cvvLength: Option<int>,
    bank: Option<string>,
    country: Option<string>,
    countryName: Option<string>)

  type Registry = map<string, Profile>

  function RuleProfile(brand: string, length: int, cvvLength: int): Profile {
    Profile(Some(brand), Some(length), Some(cvvLength), Some("Unknown"), Some("US"), None)
  }

  /** `_detect_by_rules`: the leading digits decide the brand when the registry has nothing. */
  function DetectByRules(bin: string): (r: Profile)
    ensures r.bank == Some("Unknown") && r.country == Some("US") && r.countryName == None
    ensures StartsWith(bin, "4") ==> r == RuleProfile("Visa", 16, 3)
    ensures !StartsWith(bin, "4") && StartsWith(bin, "5") ==> r == RuleProfile("Mastercard", 16, 3)
    ensures !StartsWith(bin, "4") && !StartsWith(bin, "5")
            && (StartsWith(bin, "34") || StartsWith(bin, "37"))
            ==> r == RuleProfile("American Express", 15, 4)
    ensures r.brand == Some("Unknown") <==>
            !(StartsWith(bin, "4") || StartsWith(bin, "5") || StartsWith(bin, "34") || StartsWith(bin, "37"))
    ensures r.length == Some(15) <==> r.cvvLength == Some(4)
    ensures r.length == Some(15) <==> r.brand == Some("American Express")
    ensures r.length == Some(15) || r.length == Some(16)
  {
    if StartsWith(bin, "4") then RuleProfile("Visa", 16, 3)
    else if StartsWith(bin, "5") then RuleProfile("Mastercard", 16, 3)
    else if StartsWith(bin, "34") || StartsWith(bin, "37") then RuleProfile("American Express", 15, 4)
    else RuleProfile("Unknown", 16, 3)
  }

  /** The keys `detect_card_brand` tries, most specific first: the BIN itself, then
      `bin[:4]`, `bin[:2]` and `bin[:1]`. */
  function Candidates(bin: string): (r: seq<string>)
    ensures |r| == 4
    ensures forall i | 0 <= i < |r| :: StartsWith(bin, r[i])
    ensures r[0] == bin
    ensures |r[1]| == (if |bin| < 4 then |bin| else 4)
    ensures |r[2]| == (if |bin| < 2 then |bin| else 2)
    ensures |r[3]| == (if |bin| < 1 then |bin| else 1)
  {
    [bin, Take(bin, 4), Take(bin, 2), Take(bin, 1)]
  }

  /** Reference definition of a most-specific-first lookup: the entry of the first key in
      `keys` that the registry holds. */
  function FirstHit(db: Registry, keys: seq<string>): (r: Option<Profile>)
    ensures r.None? <==> forall i | 0 <= i < |keys| :: keys[i] !in db
    ensures r.Some? ==> exists i | 0 <= i < |keys| ::
              keys[i] in db && r.value == db[keys[i]] && forall j | 0 <= j < i :: keys[j] !in db
  {
    if keys == [] then None
    else if keys[0] in db then Some(db[keys[0]])
    else
      var r := FirstHit(db, keys[1..]);
      assert forall i | 1 <= i < |keys| :: keys[i] == keys[1..][i - 1];
      r
  }

  /** `detect_card_brand`: exact BIN, then its first 4, 2 and 1 characters; the first key the
      registry holds wins and its entry is returned unchanged; with no hit, the static rules. */
  function DetectCardBrand(db: Registry, bin: string): Profile {
    if bin in db then db[bin]
    else if Take(bin, 4) in db then db[Take(bin, 4)]
    else if Take(bin, 2) in db then db[Take(bin, 2)]
    else if Take(bin, 1) in db then db[Take(bin, 1)]
    else DetectByRules(bin)
  }

  /** The if-chain of `detect_card_brand` is exactly a first-hit lookup over the candidate
      keys, with the static rules as the fallback. */
  lemma DetectIsFirstHit(db: Registry, bin: string)
    ensures DetectCardBrand(db, bin) == FirstHit(db, Candidates(bin)).GetOr(DetectByRules(bin))
  {
    var ks := Candidates(bin);
    assert ks[3..][1..] == [];
    assert ks[2..][1..] == ks[3..] && ks[1..][1..] == ks[2..];
    assert FirstHit(db, ks[3..]) == if ks[3] in db then Some(db[ks[3]]) else None;
    assert FirstHit(db, ks[2..]) == if ks[2] in db then Some(db[ks[2]]) else FirstHit(db, ks[3..]);
    assert FirstHit(db, ks[1..]) == if ks[1] in db then Some(db[ks[1]]) else FirstHit(db, ks[2..]);
  }

  /** The most specific candidate the registry holds decides the result, whatever the
      registry says about less specific ones. */
  lemma MostSpecificWins(db: Registry, bin: string, i: nat)
    requires i < 4 && Candidates(bin)[i] in db
    requires forall j | 0 <= j < i :: Candidates(bin)[j] !in db
    ensures DetectCardBrand(db, bin) == db[Candidates(bin)[i]]
  {
    var ks := Candidates(bin);
    if i > 0 { assert ks[0] !in db; }
    if i > 1 { assert ks[1] !in db; }
    if i > 2 { assert ks[2] !in db; }
  }

  /** Brand resolution depends on the registry only through the four candidate keys: two
      registries that agree there resolve every such BIN alike. */
  lemma OnlyCandidatesMatter(db1: Registry, db2: Registry, bin: string)
    requires forall i | 0 <= i < 4 :: (Candidates(bin)[i] in db1 <==> Candidates(bin)[i] in db2)
    requires forall i | 0 <= i < 4 && Candidates(bin)[i] in db1 ::
               db1[Candidates(bin)[i]] == db2[Candidates(bin)[i]]
    ensures DetectCardBrand(db1, bin) == DetectCardBrand(db2, bin)
  {
    var ks := Candidates(bin);
    assert ks[0] == bin && ks[1] == Take(bin, 4) && ks[2] == Take(bin, 2) && ks[3] == Take(bin, 1);
  }

  /** A registry that failed to load (the empty dictionary) leaves only the static rules. */
  lemma EmptyRegistryUsesRules(bin: string)
    ensures DetectCardBrand(map[], bin) == DetectByRules(bin)
  {
  }
}
