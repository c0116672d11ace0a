# slot-game-utils: a verified model of the payline core

This project models `slot_game_utils/core.py`, the five helpers a slot-machine
game uses to score one payline and package a round:

- `check_wild_symbols` marks which positions of a payline hold a wild symbol;
- `check_wild_presence` answers 0 or 1: does any position hold a wild;
- `check_win` scores a payline. It skips the leading wilds and extends a run
  through the first ordinary symbol, where a wild counts as any symbol. It
  prices the run in the pay table (a missing entry pays 0) and may prefer the
  block of leading wilds priced alone. It encodes the chosen combination as
  `B-<length>-<wild flag>-<symbol>` and decodes that code into a winline
  record;
- `extract_winline_spinwin_data` decodes such a code into
  `[winline id, combination count, symbol id, amount]`. When the code is
  malformed it gives an empty record. The spin-win list is always `[amount]`;
- `extract_game_detail` builds the game ticket: the total win, the trigger
  type, the reel matrix flattened row by row, and the spin wins.

Modules, one per concern:

- `Wrappers`: `Option`.
- `Text`: `str.split` on one separator character and its inverse `Join`.
- `Decimal`: Python's `str(int)` and the subset of `int(str)` that the codes
  use, which is an optional sign followed by ASCII digits.
- `WildDetector`: the two wild helpers, as recursive functions.
- `ResultCodec`: the code format and its decoder.
- `WinEvaluator`: `check_win`, as follows:
  - `Evaluate` is a functional specification of the choice the source makes.
  - `CheckWin` is imperative code that keeps the source's two loops. The first
    loop lives in `FindFirstNonWild` and the second in `MatchRunLength`.
  - `CheckWin` is proved to return exactly what `Evaluate` chooses, encoded
    and decoded.
- `TicketBuilder`: `extract_game_detail`.
- `Scenarios`: the concrete cases of the repository's unit tests, proved as
  lemmas about the model.

Amounts are `real`. The pay table is a `map<int, map<int, real>>`. A payline
is a `seq<int>` of symbol ids, and its wild mask is a `seq<bool>`.

## Model

| member | source | states |
|---|---|---|
| WildDetector.CheckWildSymbols | slot_game_utils/core.py:118-140 | the mask has the line's length, and position i is true exactly when line[i] is one of the wild ids |
| WildDetector.CheckWildPresence | slot_game_utils/core.py:143-166 | the result is 0 or 1, and it is 1 exactly when some position of the line holds a wild id |
| WildDetector.PresenceMatchesMask | slot_game_utils/core.py:118-166 | a wild is present exactly when the wild mask contains a true position |
| WildDetector.NoWildIdsInLine | slot_game_utils/core.py:137-166 | a line holding no wild id (including an empty line or an empty id list) gives an all-false mask and presence 0 |
| Text.Split | slot_game_utils/core.py:36 | splitting gives at least one part, and no part contains the separator |
| Text.JoinSplit | slot_game_utils/core.py:36 | joining the parts of a split with the separator rebuilds the original string |
| Text.SplitJoin | slot_game_utils/core.py:36 | splitting a join of one or more separator-free parts gives back exactly those parts |
| Text.SplitFirstPart | slot_game_utils/core.py:36 | a separator-free prefix followed by the separator becomes the first part, and the rest is split independently |
| Text.SplitNoSeparator | slot_game_utils/core.py:36 | a string without the separator splits into itself alone |
| Text.SplitFour | slot_game_utils/core.py:36 | four separator-free parts glued with the separator split back into exactly those four parts |
| Decimal.NatToString | slot_game_utils/core.py:226 | the decimal rendering of a natural number is non-empty and made of digits only, and it starts with '0' only for 0, so there are no leading zeros, as with Python's `str` |
| Decimal.IntToString | slot_game_utils/core.py:249 | a non-negative number renders as exactly its shortest digit string (NatToString, so 3 is "3", never "03"), and a negative one renders as '-' followed by the rendering of its magnitude |
| Decimal.ParseInt | slot_game_utils/core.py:44-45 | parsing succeeds exactly on an optional '+' or '-' followed by one or more digits |
| Decimal.ParseIntToString | slot_game_utils/core.py:44-45 | parsing the rendering of any integer gives that integer back |
| Decimal.ParseIntSigned | slot_game_utils/core.py:44-45 | a '+' sign leaves the parsed value unchanged and a '-' sign negates it, leading zeros included, so "+5" is 5 and "-05" is -5 |
| Decimal.ParseIntLeadingZero | slot_game_utils/core.py:44-45 | a leading zero does not change the parsed value, so "02" parses as 2 |
| ResultCodec.ExtractWinlineSpinwinData | slot_game_utils/core.py:10-69 | the spin wins are always [amount]. A record exists exactly when the code has at least four '-'-separated parts whose second and fourth parse as integers. The record is (id, second part, fourth part, amount) |
| ResultCodec.ExtractJoined | slot_game_utils/core.py:36-53 | any code built from four or more separator-free parts whose second and fourth parse decodes to the record holding those two values |
| ResultCodec.FormatCode | slot_game_utils/core.py:226 | the code `B-{length}-{flag}-{symbol}` of check_win, also at lines 249 and 267: it starts with "B-", and for non-negative numbers it splits on '-' into exactly "B" and the three shortest decimal spellings (NatToString), which fixes the text, e.g. "B-3-0-2". FormatThenExtract carries its round trip |
| ResultCodec.FormatThenExtract | slot_game_utils/core.py:226-228 | a code formatted from non-negative length, flag and symbol decodes to the record of that length and symbol, with the amount as the only spin win |
| ResultCodec.NegativeSymbolNotDecoded | slot_game_utils/core.py:249-272 | a code formatted with a negative symbol id does not decode: the record is empty and the spin wins are [amount] |
| WinEvaluator.Lookup | slot_game_utils/core.py:221-225 | the pay-table lookup under try/except, also at lines 243-247 and 259-263: a present length and symbol pay their listed price, and a missing length or symbol pays 0 |
| WinEvaluator.FirstNonWild | slot_game_utils/core.py:212-216 | the result is the first unmarked position at or after the start, or the mask's length when there is none |
| WinEvaluator.RunEnd | slot_game_utils/core.py:235-240 | every position from the start up to the result is a wild or equals the anchor symbol, and the position at the result (if any) is neither |
| WinEvaluator.MainCandidate | slot_game_utils/core.py:232-249 | the main-run candidate: its length ends a maximal run of wilds and line[p] starting at p, its symbol is line[p], its flag is 1 exactly when a wild id lies within its length, and it pays Lookup of its length and symbol. MixedLine says when it is chosen |
| WinEvaluator.AltCandidate | slot_game_utils/core.py:253-267 | the leading-wild candidate: length p, symbol line[0], flag 1 exactly when a wild id lies among the first p symbols, paying Lookup of p and line[0]. MixedLine and BestOfTwo say when it is chosen |
| WinEvaluator.RunEndIsMaximal | slot_game_utils/core.py:235-240 | the scan from the first non-wild position stops at the end of a maximal run of wilds and that symbol |
| WinEvaluator.FindFirstNonWild | slot_game_utils/core.py:212-216 | the loop with its early exit returns the first non-wild position, or the line length when every position is wild |
| WinEvaluator.MatchRunLength | slot_game_utils/core.py:235-240 | the counted run, added to the first non-wild position, ends at the end of the maximal run of wilds and anchor symbols |
| WinEvaluator.Evaluate | slot_game_utils/core.py:169-274 | the chosen combination has length 1 to the line length, a flag of 0 or 1, and a symbol taken from the line, and it pays what the pay table lists for its length and symbol (0 when absent) |
| WinEvaluator.CheckWin | slot_game_utils/core.py:169-274 | the win and the code are those of the combination Evaluate chooses. The winline record and spin wins are the decoding of that code. The spin wins are [win]. For a non-negative symbol the record is (line id, length, symbol, win) |
| WinEvaluator.EvaluateRoundTrip | slot_game_utils/core.py:226-272 | for a non-negative chosen symbol, the code check_win emits decodes to the record of the chosen length, symbol and amount |
| WinEvaluator.AllWildLine | slot_game_utils/core.py:218-229 | a line of wilds only is scored as the whole line, flag 1, symbol line[0], at the pay table's price for that length |
| WinEvaluator.FirstNonWildUnique | slot_game_utils/core.py:212-216 | any position preceded only by wilds and itself not wild is the first non-wild position |
| WinEvaluator.RunEndUnique | slot_game_utils/core.py:235-240 | any maximal run of wilds and the anchor symbol ends where the scan stops |
| WinEvaluator.MixedLine | slot_game_utils/core.py:231-274 | with p the first non-wild position and e the end of its maximal run, the result is the leading-wild block (length p, symbol line[0]) when p >= 2 and that block pays strictly more. Otherwise the result is the run (length e, symbol line[p]), each with the wild flag of its own prefix |
| WinEvaluator.BestOfTwo | slot_game_utils/core.py:251-270 | with at least two leading wilds the payout is the larger of the run's and the leading block's prices, and otherwise it is the run's price |
| WinEvaluator.FlagMeansWildInCombination | slot_game_utils/core.py:248-266 | with the mask computed from the wild ids, the code's wild flag is 1 exactly when some symbol inside the reported combination is a wild |
| WinEvaluator.NonNegativePayout | slot_game_utils/core.py:243-263 | a pay table with no negative prices never yields a negative win |
| TicketBuilder.Flatten | slot_game_utils/core.py:105 | `chain.from_iterable`: the result has exactly the matrix's number of cells. FlattenRowMajor carries the row-major layout: every row, in order, at its offset |
| TicketBuilder.FlattenRow | slot_game_utils/core.py:105 | row i of the matrix sits, unchanged, at its row-major offset in the flattened reels |
| TicketBuilder.FlattenRowMajor | slot_game_utils/core.py:105 | the flattened reels have the total number of cells, and every row appears in order at its offset |
| TicketBuilder.ExtractGameDetail | slot_game_utils/core.py:72-115 | the ticket carries the total win, trigger type and spin wins unchanged. Its reels hold exactly the matrix's cells, row after row |
| TicketBuilder.WinlinesIgnored | slot_game_utils/core.py:76-113 | the winlines argument has no influence on the ticket |
| Scenarios.WildMaskNoWilds | tests/test_core.py:46-53 | [1,2,3,4,5] with wild ids [10,11] gives an all-false mask |
| Scenarios.WildMaskSomeWilds | tests/test_core.py:55-62 | [1,5,3,5,2] with wild ids [5,10] is marked at positions 1 and 3 |
| Scenarios.WildMaskAllWilds | tests/test_core.py:64-80 | [5,10,5,10,5] with wild ids [5,10] is marked everywhere, and the empty line gives the empty mask |
| Scenarios.WildFixturePresences | tests/__init__.py:106-109 | the fixture lines give presences 0, 1, 1 and 0 |
| Scenarios.WildFixtureNoIds | tests/__init__.py:110 | [1,2,3] with no wild ids gives an all-false mask and presence 0 |
| Scenarios.WildPresenceScenarios | tests/test_core.py:86-121 | presence is 1 for lines holding a wild id, and 0 otherwise or when there are no wild ids |
| Scenarios.DecodeValidCode | tests/test_core.py:262-271 | "B-3-0-02-1" decodes to (1, 3, 2, 50.0) |
| Scenarios.DecodeFixtureWildCode | tests/__init__.py:93 | "B-2-1-5-1" decodes to (1, 2, 5, amount) |
| Scenarios.DecodeFixtureFourCode | tests/__init__.py:94 | "B-4-0-03-1" decodes to (1, 4, 3, amount), the leading zero of the symbol ignored |
| Scenarios.DecodeTriggerCode | tests/test_core.py:284-293 | "TF-5-1-10-2" decodes to (5, 5, 10, 100.0) |
| Scenarios.DecodeTooFewParts | tests/test_core.py:273-282 | "B-3" gives no record and keeps the amount as the spin win |
| Scenarios.DecodeMalformedFixtures | tests/__init__.py:95-98 | "INVALID", "B-2" and "" give no record and keep the amount as the spin win |
| Scenarios.DecodeNonNumeric | tests/__init__.py:97 | "B-a-b-c-d" gives no record and keeps the amount |
| Scenarios.RegularWinNoWilds | tests/test_core.py:136-150 | [2,2,2,1,3] without wilds scores three 2s for 30, with code "B-3-0-2" |
| Scenarios.RegularWinCheckWin | tests/test_core.py:136-150 | CheckWin on that line returns win 30, code "B-3-0-2", record (1, 3, 2, 30) and spin wins [30] |
| Scenarios.WinWithWilds | tests/test_core.py:152-166 | a leading wild joins the run of 2s: length 3, flag 1, 30, code "B-3-1-2" |
| Scenarios.AllWildsScenario | tests/test_core.py:168-182 | five wilds score the whole line with flag 1 for 250, code "B-5-1-5" |
| Scenarios.AlternativeWildPattern | tests/test_core.py:184-197 | two leading wilds before 3 score the run through 3 (40) over the wild block (25), code "B-3-1-3" |
| Scenarios.AlternativeWins | slot_game_utils/core.py:258-270 | when the wild block pays strictly more than the run, the wild block is chosen |
| Scenarios.AlternativeWinsCheckWin | slot_game_utils/core.py:265-270 | CheckWin in that case returns the block's win 25, code "B-2-1-5" and record (7, 2, 5, 25) |
| Scenarios.NoWin | tests/test_core.py:199-213 | a line with no priced combination pays 0 |
| Scenarios.MissingPayTableEntry | tests/test_core.py:215-227 | a run whose symbol is missing from the pay table pays 0, code "B-5-0-9" |
| Scenarios.IntegrationWilds | tests/test_core.py:230-247 | the integration line [5,2,2,5,1] has wilds at 0 and 3, and presence 1 |
| Scenarios.IntegrationWin | tests/test_core.py:249-250 | the integration line scores the run 5,2,2,5 as length 4, flag 1, symbol 2, for 50, code "B-4-1-2" |
| Scenarios.IntegrationTicket | tests/test_core.py:252-258 | the integration matrix flattens to [5,2,2,5,1,3] |
| Scenarios.TicketScenario | tests/test_core.py:299-312 | a 3x3 matrix flattens to 1..9 with win, trigger type and spin wins kept |
| Scenarios.TicketEmptyMatrix | tests/test_core.py:19-32 | an empty matrix gives empty reels, with win, trigger type and spin wins kept |
| Scenarios.TicketTriggerTypes | tests/test_core.py:34-40 | the trigger types "normal", "bonus" and "free_spin" pass through |

## Left out

- The `print` diagnostics on a pay-table miss or a malformed code are left out. They are output only.
- NumPy arrays are left out. A NumPy line, as accepted by `check_wild_presence`, is modelled as the same sequence of ints.
- Amounts are `real`, not IEEE floats. Python's distinction between the int `0` and the float prices of a miss is not kept, and NaN and infinities are not modelled.
- Decimal.ParseInt: ignores CPython's limit of 4300 digits on `int(str)` and `str(int)`. Past that limit `int()` raises ValueError, which the decoder catches at slot_game_utils/core.py:55, so the record would be empty; `str()` in check_win would raise uncaught. Here both always succeed. No pay-table length or symbol id comes near that size.
- Decimal.ParseInt: models `int()` only on an optional sign followed by ASCII digits. Python also accepts surrounding whitespace, `_` between digits and non-ASCII decimal digits. The codes check_win emits never contain those.
- The source's exception handling is modelled only where this code can raise:
  - a missing pay-table length or symbol pays 0 (`Lookup`);
  - a short or non-numeric code gives no record.
- WinEvaluator.CheckWin: requires a non-empty line, because `line[0]` raises on an empty one. It also requires a wild mask of exactly the line's length. A longer mask is only read up to the line's length. A shorter mask raises only when one of the two scans reads past its end, for example an all-wild short mask. A shorter mask that both scans stop within, such as `[False, False]` for a five-symbol line whose second symbol differs from its first, returns normally in the source, and that case is not modelled.
- The winline record is `Option<Winline>`, not a heterogeneous Python list. The ticket's `winlines` argument is typed as a sequence of such records. The function ignores it anyway.
- The ticket's dictionary is the datatype `GameTicket`, and the reel cells have a generic type.
- The helpers `FindFirstNonWild` and `MatchRunLength` hold `check_win`'s two loops. The source writes those loops inline; the loops, their early exits and their counters are the same.
- `examples/example_usage.py`, `setup.py`, the package `__init__.py` and the test fixtures are not part of this model. Only the fixtures' concrete values are restated in `Scenarios`.
