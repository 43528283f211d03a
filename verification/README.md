# Card-number synthesis, modelled in Dafny

This project models the card-number construction core of a test-card generator:

- the Luhn check digit (ISO/IEC 7812-1, Annex B) as `LuhnValidator` computes and validates it;
- brand resolution of a BIN (bank identification number) prefix against the BIN registry
  (`BINDatabase`), with its static fallback rules;
- the assembly of a card by `CardGenerator`: BIN + account segment + check digit, the display
  grouping, the "MM/YY" expiry string and the CVV derived from number and expiry;
- the row-to-entry validator of the debit-card selector, which turns one CSV row of a BIN list
  into a registry entry or rejects it.

Modules, one per file:

| file | module | models |
|---|---|---|
| `wrappers.dfy` | `Wrappers` | `Option`, standing for `None`, a missing key or a raised error |
| `text.dfy` | `Text` | the Python string operations used: ASCII `lower`/`upper`, `replace(c, '')`, substring `in`, slices |
| `digits.dfy` | `Digits` | digit strings, `int()` of a digit string, `str(n)`, `zfill(2)` |
| `luhn.dfy` | `Luhn` | `LuhnValidator` |
| `bin_database.dfy` | `BinDatabase` | `BINDatabase.detect_card_brand`, `_detect_by_rules` |
| `card_generator.dfy` | `CardGenerator` | `hash_bank_name`, `generate_account_segment`, the expiry format, `generate_cvv`, `generate_card` |
| `debit_cards.dfy` | `DebitCards` | `validate_card_entry` |

The checksum walks, the account-segment builder, `generate_card` and `validate_card_entry` are
methods with loops or in-place updates, proved against specification functions (`Luhn.Total`,
`CardGenerator.AccountSegment`, `CardGenerator.CardOf`, `DebitCards.Classify`). Brand resolution, the CVV formula and the grouping are functions.

Inputs that the source draws at random or reads from outside are parameters, and every
property holds for every choice of them:

- the BIN registry (`self.database`, set once from `bins` of a JSON file) is an immutable
  `map<string, Profile>`; a failed load is the empty map;
- `int(md5(bank).hexdigest()[:8], 16)` is a caller-supplied total function `md5Prefix`;
- the Markov-chain middle digits are a caller-supplied sequence of digits 0..9;
- the `randint(10, 99)` sequence number is a caller-supplied number in 10..99;
- the expiry month (1..12) and expiry year are caller-supplied.

Where the code raises (Python's `int()` on an empty string or a non-digit), the model returns
`None`.

Behaviour of the code that a reader might not expect, modelled as written:

- an over-long BIN is accepted: the number comes out with length `max(card_length, len(bin) + 5)`;
- an empty or non-numeric BIN is not checked up front: `int()` raises inside the generator;
- the static rules know only Visa (`4`), Mastercard (`5`) and American Express (`34`, `37`);
- a CVV is "weak" only when its first three digits are equal;
- the 4-6-5 grouping is chosen by a brand length of 15;
- the Luhn-failure branch regenerates by calling `generate_card` again, with no bound.
  `Luhn.RoundTrip` shows that branch can never be taken.

## Model

| member | source | states |
|---|---|---|
| `Digits.ParseInt` | scripts/data/card_generator.py:27 | `int()` of a string: a value exactly when the string is non-empty and all ASCII digits, else `None` (the raised `ValueError`) |
| `Luhn.Contribution` | scripts/data/card_generator.py:29-35 | A digit adds itself when not doubled, and the sum of the decimal digits of its double when doubled; either way 0..9 |
| `Luhn.Total` | scripts/data/card_generator.py:23-35 | Specification of the walk: the sum of the contributions of the `k` rightmost digits, the digit at distance `i` from the right doubled iff `i` is even exactly when the walk starts doubled; its properties are stated by `Luhn.TotalAppend` and `Luhn.CheckDigitUnique` |
| `Luhn.CheckDigit` | scripts/data/card_generator.py:37 | `(10 - total % 10) % 10` of the walk that starts doubled; always a single digit 0..9 |
| `Luhn.IsLuhnValid` | scripts/data/card_generator.py:57 | The walk that starts undoubled totals a multiple of 10; `Luhn.CheckDigitUnique` ties it to `CheckDigit` |
| `Luhn.TotalAppend` | scripts/data/card_generator.py:21-57 | Appending a digit flips the doubling of every earlier digit: the total of `p + [c]` is `c`'s contribution plus the total of `p` with the opposite start |
| `Luhn.CalculateCheckDigit` | scripts/data/card_generator.py:21-38 | The right-to-left loop that starts by doubling yields `None` exactly for a non-digit input; otherwise it yields the check digit, and `p` followed by it validates |
| `Luhn.Validate` | scripts/data/card_generator.py:41-57 | The right-to-left loop that leaves the rightmost digit undoubled yields `None` exactly for a non-digit input; otherwise it is true iff the total is a multiple of 10 |
| `Luhn.RoundTrip` | scripts/data/card_generator.py:257-263 | For every digit string, the string followed by its computed check digit validates, so the regeneration branch is dead |
| `Luhn.CheckDigitUnique` | scripts/data/card_generator.py:37 | Appending digit `d` validates iff `d` is the computed check digit |
| `BinDatabase.DetectByRules` | scripts/data/card_generator.py:142-151 | Prefix 4 gives Visa 16/3; else 5 gives Mastercard 16/3; else 34 or 37 gives American Express 15/4; else Unknown 16/3. Bank is always Unknown and country US; length 15 iff CVV length 4 iff American Express |
| `BinDatabase.DetectCardBrand` | scripts/data/card_generator.py:118-140 | The exact, 4-, 2- and 1-character lookups, then the static rules; `BinDatabase.DetectIsFirstHit` states it is the first hit over `Candidates` |
| `BinDatabase.Candidates` | scripts/data/card_generator.py:120-136 | Four keys, each a prefix of the BIN: the BIN itself, then prefixes of length `min(len(bin), 4)`, `min(len(bin), 2)` and `min(len(bin), 1)` |
| `BinDatabase.FirstHit` | scripts/data/card_generator.py:118-137 | Reference lookup: `None` iff no key is in the registry; otherwise the entry of a present key with no earlier key present |
| `BinDatabase.DetectIsFirstHit` | scripts/data/card_generator.py:118-140 | `detect_card_brand` equals the first-hit lookup over the four candidates, falling back to the static rules |
| `BinDatabase.MostSpecificWins` | scripts/data/card_generator.py:120-137 | When candidate `i` is the first one the registry holds, its entry is returned unchanged |
| `BinDatabase.OnlyCandidatesMatter` | scripts/data/card_generator.py:118-140 | Two registries that agree on the four candidate keys resolve the BIN to the same profile |
| `BinDatabase.EmptyRegistryUsesRules` | scripts/data/card_generator.py:114-140 | A registry that failed to load (empty) leaves only the static rules |
| `CardGenerator.BankSeed` | scripts/data/card_generator.py:162-169 | The bank seed is 0 for an empty or "Unknown" bank, otherwise the MD5 prefix modulo 100; always 0..99 |
| `CardGenerator.AccountSegment` | scripts/data/card_generator.py:171-190 | Reference segment: `None` where `int()` of the BIN's last four characters raises, else the zero-padded branch code, the middle digits and the sequence number |
| `CardGenerator.AccountSegmentShape` | scripts/data/card_generator.py:171-190 | `None` iff `int()` of the BIN's last four characters fails. Otherwise the segment is all digits, of length 4 plus the number of middle digits. Its first two digits read `(int(last4) + seed) % 100`, its middle digits are the chosen ones in order, and its last two read the sequence number, with a non-zero penultimate digit |
| `CardGenerator.GenerateAccountSegment` | scripts/data/card_generator.py:171-190 | The loop that appends the branch code, one digit per middle position and the sequence number returns exactly `AccountSegment` of its inputs |
| `CardGenerator.FormatExpiry` | scripts/data/card_generator.py:210-217 | "MM/YY": two digits reading the month, a slash, two digits reading the year modulo 100 |
| `CardGenerator.ExpiryNumber` | scripts/data/card_generator.py:222 | `int()` of the expiry with the slash removed is `100 * month + year % 100` |
| `CardGenerator.Candidate` | scripts/data/card_generator.py:225-228 | A first CVV value is 4 digits in 1000..9999 for CVV length 4, else 3 digits in 100..999 |
| `CardGenerator.Pseudo` | scripts/data/card_generator.py:223 | `(seed * 9301 + 49297) % 233280`, always below 233280 |
| `CardGenerator.IsWeak` | scripts/data/card_generator.py:231-232 | The first three characters are in the ten-entry weak list; `CardGenerator.WeakMeansTripleDigit` states what that means |
| `CardGenerator.FixedCandidate` | scripts/data/card_generator.py:230-237 | After the fix-up the value still has 4 digits in 1000..9999 for length 4, else 3 digits in 100..999 |
| `CardGenerator.GenerateCvv` | scripts/data/card_generator.py:220-239 | `int()` of the last four characters plus `int()` of the slash-less expiry, or `None` where either raises; its properties are stated by `CvvFailure`, `CvvShape` and `FixUpCanStayWeak` |
| `CardGenerator.CvvFromSeed` | scripts/data/card_generator.py:223-239 | The fixed-up candidate for the seed's pseudo-random value cut to `cvv_length` characters; `CardGenerator.CvvShape` states its shape |
| `CardGenerator.CvvFailure` | scripts/data/card_generator.py:220-222 | `generate_cvv` gives `None` iff `int()` of the number's last four characters or of the expiry without its slash fails |
| `CardGenerator.CvvShape` | scripts/data/card_generator.py:220-239 | A CVV that comes out is digits only: 4 in 1000..9999 for length 4, 3 in 100..999 for length 3, and for any other length a slice of a 3-digit value in 100..999 |
| `CardGenerator.CandidateShift` | scripts/data/card_generator.py:225-237 | Adding the offset (1234 for length 4, else 123) to the pseudo-random value always changes the candidate |
| `CardGenerator.WeakMeansTripleDigit` | scripts/data/card_generator.py:231-232 | A CVV is in the weak-pattern list iff its first three digits are equal |
| `CardGenerator.FixUpReplacesWeak` | scripts/data/card_generator.py:230-237 | A first value with three equal leading digits is replaced, once, by the value for `pseudo + 1234` (length 4) or `pseudo + 123`, which always differs from it; any other first value is kept |
| `CardGenerator.FixUpCanStayWeak` | scripts/data/card_generator.py:230-239 | The fix-up is not re-checked: number ending 0114 with expiry "12/28" gives 999, then 222, which is still weak |
| `CardGenerator.FormatNumber` | scripts/data/card_generator.py:270-273 | The 4-6-5 grouping for a brand length of 15, else 4-4-4-rest, with Python's clamped slices; `CardGenerator.FormatNumberRoundTrip` states its properties |
| `CardGenerator.FormatNumberRoundTrip` | scripts/data/card_generator.py:269-273 | Deleting the spaces from the display form gives back the number; the display form has 2 separators (4-6-5) iff the brand length is 15, else 3 (4-4-4-rest) |
| `CardGenerator.AssembledNumber` | scripts/data/card_generator.py:250-258 | BIN + segment + check digit is all digits, starts with the BIN and validates. Its length is `card_length` when `card_length - len(bin) - 1 >= 4`, else `len(bin) + 5` |
| `CardGenerator.CardOf` | scripts/data/card_generator.py:241-284 | Reference card: the profile of `detect_card_brand`, BIN + `AccountSegment` + check digit as the number, its grouping, the formatted expiry, `generate_cvv`, and the profile's fields with the defaults of `generate_card`; `None` where an `int()` raises |
| `CardGenerator.CardFailure` | scripts/data/card_generator.py:241-267 | A card is produced iff the BIN is non-empty and all digits: with such a BIN neither the segment, the check-digit walk nor `generate_cvv` can raise |
| `CardGenerator.CardShape` | scripts/data/card_generator.py:241-284 | The number is BIN + `AccountSegment` + the check digit of the two: all digits, starting with the BIN, Luhn-valid, of length `max(card_length, len(bin) + 5)`. The display form is `FormatNumber` of the number and gives it back with the spaces removed. The CVV is `generate_cvv` of number, expiry and CVV length. Brand, bank, country and country name default to Unknown, Unknown, US and United States |
| `CardGenerator.GenerateCard` | scripts/data/card_generator.py:241-284 | The imperative generator (brand lookup, segment, check digit, validation, expiry, CVV, grouping) returns exactly `CardOf` of its inputs; the validation-failure branch is proved dead |
| `DebitCards.FirstMatch` | scripts/data/select-random-debit-cards.py:49-82 | Reference for an if/elif chain: `None` iff no rule's condition holds; otherwise a rule whose condition holds and whose predecessors' conditions all fail |
| `DebitCards.BaseEntry` | scripts/data/select-random-debit-cards.py:38-47 | The entry before the chain: scheme is the lower-cased brand without spaces or "unknown", type lower-cased, brand or "Unknown", issuer or "Various", country code and name from the row, length 16, CVV length 3; `DebitCards.ClassifiedShape` states what survives the chain |
| `DebitCards.Matches` | scripts/data/select-random-debit-cards.py:50-80 | The seven substring conditions of the chain, each as written; `DebitCards.FirstMatchInOrder` states the order they are tried in |
| `DebitCards.ApplyRule` | scripts/data/select-random-debit-cards.py:51-82 | What each branch writes: scheme, brand, length and CVV length (private label keeps length and CVV length); `DebitCards.ClassifiedShape` states the result |
| `DebitCards.Classify` | scripts/data/select-random-debit-cards.py:38-82 | The base entry rewritten by the first matching branch; `DebitCards.FirstBranchWins` and `DebitCards.ClassifiedShape` state its properties |
| `DebitCards.HasField` | scripts/data/select-random-debit-cards.py:85-87 | `field in entry and entry[field]` for the eight keys of an entry, false for any other key; `DebitCards.ValidateCardEntry` uses it in its acceptance condition |
| `DebitCards.FirstMatchInOrder` | scripts/data/select-random-debit-cards.py:50-80 | The rules are tried in the order amex, visa, mastercard, discover, jcb, diners, private label |
| `DebitCards.FirstBranchWins` | scripts/data/select-random-debit-cards.py:49-82 | Only the first branch whose condition holds rewrites the entry |
| `DebitCards.ValidateCardEntry` | scripts/data/select-random-debit-cards.py:28-93 | Accepted iff the type upper-cases to DEBIT, every required field is present and non-empty in the classified entry, and the country code has 2 characters. An accepted entry is the classified row, with type "debit". A non-debit row is always rejected with no entry |
| `DebitCards.DebitLowersToDebit` | scripts/data/select-random-debit-cards.py:34-40 | A type that upper-cases to "DEBIT" lower-cases to "debit" |
| `DebitCards.ClassifiedShape` | scripts/data/select-random-debit-cards.py:38-82 | Every classified entry has length 14, 15 or 16 and CVV length 3 or 4. Its scheme is "amex" iff length 15 iff CVV length 4. Country, country name and type come from the row, and the bank defaults to Various |

## Left out

- File and JSON loading (`_load_database`, `_load_address_database`, `load_bin_database`): the registry and the required-field set are parameters; a failed load is the empty map.
- The MD5 digest in `hash_bank_name` is a foreign library call: it is the caller-supplied function `md5Prefix`; the empty/"Unknown" case and the `% 100` are modelled.
- `MarkovChainGenerator.get_next_digit` draws from a float probability table with `random.random()`. It is not modelled: every path of it returns a digit 0..9, and the model takes any digits 0..9.
- `generate_expiry_date` uses float weights, `random` and `datetime.now()`: only the "MM/YY" formatting from a given month and expiry year is modelled, not the weighted choice or the clock.
- `PersonGenerator`, `generate_complete_info`, `save_to_file` and the script entry points: random name and address picks, file writes and printing.
- `select_random_cards`, `display_results`, `save_to_json`, `main`: CSV streaming, shuffling and sampling, printing and file output.
- `ParseInt` accepts only ASCII digit strings. Python's `int()` also accepts surrounding whitespace, a sign, underscores and non-ASCII decimal digits. `generate_card` rejects all of these in its Luhn walk except non-ASCII digits, which the model rejects too.
- `DebitCards.DebitLowersToDebit`: holds only under ASCII case mapping. In Python `"debıt".upper()` is "DEBIT" but its `.lower()` keeps the dotless ı, so `validate_card_entry` accepts such a row with a type other than "debit"; the model does not capture this.
- `Text.Upper` and `Text.Lower` map ASCII letters only; Python's Unicode case mapping (for example dotless i upper-casing to I) is not modelled.
- Registry entries whose fields hold JSON values of another type (a string length, a `null` bank) are not modelled: `Profile` fields are typed, and a missing key is `None`.
- A CSV row with missing columns (where the reader yields `None` and `.upper()` raises) is not modelled: `Row` fields are strings.
- The regeneration recursion of `generate_card` is not modelled as recursion: `Luhn.RoundTrip` shows it is never entered.
