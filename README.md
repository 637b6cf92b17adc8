# shikimori-cards: the bingo engine and its helpers, in Dafny

This project models the core of shikimori-cards, a service that renders cards
for users of the Shikimori anime/manga site. The model covers:

- **The predicate algebra** (`src/bingo/base_check.py`). A check is a tree of
  negation, short-circuit conjunction, short-circuit disjunction and leaves.
  The `AndCheck`/`OrCheck` objects own a mutable child list, and `&` and `|`
  extend that list in place.
- **The task leaves and catalog** (`src/bingo/checks.py`). These are tests of
  a history entry's description and target, and tests of the target's
  metadata looked up through the site's API. The 49-task `BINGO_TASKS`
  catalog is built from them.
- **Card generation and the completion count** (`src/bingo/__main__.py`).
- **The request-parameter parsers and the thousands formatter** (`src/utils.py`).
- **Score summing, the rank bands and `TOTAL_WEIGHT`** (`src/fetchers/user_fetcher.py`).

Modules, one per source file:

- `Wrappers`: `Option`, `Result`.
- `Shikimori`: the client library's records, reduced to the fields the engine reads. It also holds the metadata source `Api` and the exceptions a check can raise.
- `BaseCheck`, `BingoChecks`, `BingoCard`, `Utils` and `UserFetcher`.

Modelling choices:

- **Evaluation.** Evaluating a check is a function of the history entry and an
  `Api` value (two total functions returning `Option`). This makes it
  deterministic. The API's `None` results, a `None` target and an unknown
  target class are modelled as the exceptions the code raises (`Outcome =
  Result<bool, Error>`). They propagate through the short-circuit operators
  the way Python exceptions do.
- **Objects and values.** The meaning of a check is the datatype `Check`.
  The Python `AndCheck`/`OrCheck` objects are classes with a `checks:
  seq<Check>` field. Their `Evaluate` methods are the loops with early
  return, proved against `EvalAll`/`EvalAny`. They also report how many
  children were called.
- **Weights.** Catalog weights are integer tenths (1 → 10, 0.5 → 5, …).
- **The draw.** numpy's weighted draw without replacement is a
  nondeterministic choice of a subset of the filtered positions, of the
  requested size.

Behaviour of the code the model keeps:

- `&` and `|` mutate an existing `AndCheck`/`OrCheck` by appending to its
  child list, and return that same object.
- An empty filtered set makes `numpy.random.choice` raise a `ValueError`
  (`DrawError.EmptyPopulation`). `BingoCard.EmptyPopulationIffNoTypes` shows
  that this happens only when no product type is requested.
- `get_product_type` raises on a target of any other class, and the leaves
  propagate that as `Error.UnknownType`.

## Model

| member | source | states |
|---|---|---|
| BaseCheck.Eval | src/bingo/base_check.py:11-12 | `await check(api, history)`: `Check.__call__` dispatches to the subclass's `check`, so an InvertCheck negates its child, an AndCheck/OrCheck runs `EvalAll`/`EvalAny` over its children, a FuncCheck applies `func(history)`, and any other leaf runs its own `check`; its properties are the lemmas below |
| BaseCheck.EvalAll | src/bingo/base_check.py:42-46 | `AndCheck.check` as a value: the children in order, returning the first outcome that is not true, and true for the empty list; characterised by `EvalAllTrue`, `EvalAllStops` and `EvalAllAppend` |
| BaseCheck.EvalAny | src/bingo/base_check.py:53-57 | `OrCheck.check` as a value: the children in order, returning the first outcome that is not false, and false for the empty list; characterised by `EvalAnyTrue`, `EvalAnyStops` and `EvalAnyAppend` |
| BaseCheck.InvertNegates | src/bingo/base_check.py:30-35 | an inverted check is Ok exactly when its child is, with the opposite boolean; double inversion is the identity |
| BaseCheck.AllSteps | src/bingo/base_check.py:43-45 | the number of children an `AndCheck` calls never exceeds the number of children |
| BaseCheck.AnySteps | src/bingo/base_check.py:54-56 | the number of children an `OrCheck` calls never exceeds the number of children |
| BaseCheck.EvalAllTrue | src/bingo/base_check.py:42-46 | a conjunction is true iff every child is true (so the empty list is true), and then every child was called |
| BaseCheck.EvalAllStops | src/bingo/base_check.py:43-45 | the first child that is not true decides the conjunction, and exactly the children up to it are called |
| BaseCheck.EvalAllIgnoresRest | src/bingo/base_check.py:43-45 | once a prefix is not true, children appended after it change neither the result nor the number of calls |
| BaseCheck.EvalAnyTrue | src/bingo/base_check.py:53-57 | a disjunction is true iff some child is true and every child before the first true one is false |
| BaseCheck.EvalAnyWithoutErrors | src/bingo/base_check.py:53-57 | when no child raises, a disjunction is Ok(some child is true) |
| BaseCheck.EvalAnyStops | src/bingo/base_check.py:54-56 | the first child that is not false decides the disjunction, and exactly the children up to it are called |
| BaseCheck.EvalAnyFalse | src/bingo/base_check.py:53-57 | when every child is false (including the empty list) the disjunction is false after calling all children |
| BaseCheck.EvalAllAppend | src/bingo/base_check.py:17-21 | appending a child to a conjunction conjoins the old result with that child's |
| BaseCheck.EvalAnyAppend | src/bingo/base_check.py:23-27 | appending a child to a disjunction disjoins the old result with that child's |
| BaseCheck.FuncIgnoresApi | src/bingo/base_check.py:60-65 | a `FuncCheck` returns `func(history)` whatever the api |
| BaseCheck.AndCheck.constructor | src/bingo/base_check.py:38-40 | the new object holds exactly the given children |
| BaseCheck.AndCheck.Evaluate | src/bingo/base_check.py:42-46 | the loop returns the conjunction of the children and calls exactly `AllSteps` of them |
| BaseCheck.OrCheck.constructor | src/bingo/base_check.py:49-51 | the new object holds exactly the given children |
| BaseCheck.OrCheck.Evaluate | src/bingo/base_check.py:53-57 | the loop returns the disjunction of the children and calls exactly `AnySteps` of them |
| BaseCheck.AndOp | src/bingo/base_check.py:17-21 | `a & b` on an `AndCheck` appends b's meaning in place and returns the same object; on anything else it returns a fresh `AndCheck` of exactly [a, b]; either way the result evaluates to a's old meaning and-then b |
| BaseCheck.OrOp | src/bingo/base_check.py:23-27 | `__or__` on an `OrCheck` appends in place and returns the same object; otherwise a fresh `OrCheck` of exactly [a, b]; the result evaluates to a's old meaning or-else b |
| BaseCheck.InvertOp | src/bingo/base_check.py:14-15 | `~a` evaluates to the negation of a's current meaning |
| BingoChecks.GetProductType | src/bingo/checks.py:24-34 | the category is found iff the target is an AnimeInfo, MangaInfo or RanobeInfo, and it is the category of that class; any other class raises "Unknown type" |
| BingoChecks.WatchedAnime | src/bingo/checks.py:69-72 | true iff the description is "Просмотрено" or starts with "Просмотрено и оценено" and the target URL starts with "/animes"; raises iff the description matches and there is no target |
| BingoChecks.ReadMangaRanobe | src/bingo/checks.py:75-78 | true iff the description is "Прочитано" or starts with "Прочитано и оценено" and the URL starts with "/mangas" or "/ranobe"; raises iff the description matches and there is no target |
| BingoChecks.WatchedAndReadExclusive | src/bingo/checks.py:69-78 | no history entry satisfies both the watched-anime and the read-manga/ranobe checks |
| BingoChecks.OnTarget | src/bingo/checks.py:180-181 | a catalog lambda over `h.target` raises iff there is no target, otherwise it is the predicate on the target |
| BingoChecks.OnAiredYear | src/bingo/checks.py:187-196 | a lambda over `aired_on.year` raises iff the target or its airing date is missing, otherwise it is the predicate on the year |
| BingoChecks.StartedOngoing | src/bingo/checks.py:220 | raises iff there is no target; true iff the target is "ongoing" and the description is "Смотрю" or contains "эпизод" |
| BingoChecks.ProductInfo | src/bingo/checks.py:37-51 | the lookup succeeds iff the category is known and the api has a record for (category, id), and then returns that record; otherwise it raises "Unknown type" for any other class and "Product data cannot be None" (`NoProductData`) for a missing record |
| BingoChecks.AsList | src/bingo/checks.py:82-85 | the constructors of GenresCheck (checks.py:82-85) and AnimeAdaptationCheck (checks.py:147-150) turn a single string into a one-element list and keep a list as it is |
| BingoChecks.AnyIn | src/bingo/checks.py:96 | `any([i in genres for i in wanted])` holds iff some wanted name is in the list |
| BingoChecks.Genres | src/bingo/checks.py:81-96 | false without a target; raises iff the lookup raises, with the lookup's error; true iff some wanted genre is among the product's genres |
| BingoChecks.PlannedMoreCompleted | src/bingo/checks.py:99-105 | false without a target; with a target it raises iff the lookup raises (unknown class, no record; with that same error) or there are fewer than two counters (IndexError); true iff counter 0 (planned) exceeds counter 1 (completed) |
| BingoChecks.CompletedLessNUsers | src/bingo/checks.py:108-117 | false without a target; with a target it raises iff the lookup raises (with that same error) or there are fewer than two counters; true iff counter 1 is below n |
| BingoChecks.AddListLessNUsers | src/bingo/checks.py:120-129 | false without a target; raises iff the lookup raises, with the lookup's error; true iff the sum of all counters is below n |
| BingoChecks.StudiosNumMoreN | src/bingo/checks.py:132-143 | false without a target and false for a manga or ranobe; raises "Unknown type" for any other class and NoProductData for an anime without a record, and only then; true iff it is an anime whose record lists more than n studios |
| BingoChecks.AnimeAdaptation | src/bingo/checks.py:146-166 | false without a target and false for a manga or ranobe; raises "Unknown type" for any other class and NoRelatedData for an anime whose related list is None, and only then; true iff some related work is an "Adaptation" of a manga whose kind is in the list |
| BingoChecks.EvaluateAnimeAdaptation | src/bingo/checks.py:152-166 | the loop with early return computes exactly `AnimeAdaptation` |
| BingoChecks.MetadataLeavesNeedTarget | src/bingo/checks.py:87-89 | all six metadata leaves are false on an entry without a target, whatever the api holds |
| BingoChecks.BingoTasks | src/bingo/checks.py:177-227 | `BINGO_TASKS` transcribed in order: each task's description, its check built from the leaves and `&`, its weight in tenths and its product types; its shape is stated by `CatalogSize`, `CatalogWeights` and `CatalogProducts` |
| BingoChecks.CatalogSize | src/bingo/checks.py:177-227 | the catalog has 49 tasks |
| BingoChecks.CatalogWeights | src/bingo/checks.py:177-227 | every task weight is positive |
| BingoChecks.CatalogProducts | src/bingo/checks.py:177-227 | every task is for ["anime"] or for ["manga", "ranobe"] |
| BingoCard.Filtered | src/bingo/__main__.py:16-19 | the result holds exactly the positions whose task shares a product type with the request, in increasing order |
| BingoCard.FilteredIds | src/bingo/__main__.py:16-19 | the keys of `filtered_bingo_tasks` are exactly the 1-based catalog positions relevant to the request, strictly increasing |
| BingoCard.EmptyPopulationIffNoTypes | src/bingo/__main__.py:16-19 | the filtered set is empty iff no product type is requested |
| BingoCard.KeysCard | src/bingo/__main__.py:24-28 | distinct positions give distinct `str(n)` keys |
| BingoCard.Draw | src/bingo/__main__.py:24-31 | numpy's ValueErrors exactly for an empty population, a sample larger than it, or a negative size; otherwise `size` keys, each `str(n)` of a population member, all None |
| BingoCard.GenerateBingoCard | src/bingo/__main__.py:12-32 | the same, over the catalog filtered by the requested product types |
| BingoCard.CountCompletedTasks | src/bingo/__main__.py:58-63 | the loop counts exactly the slots whose value is not None |
| BingoCard.CompletedAtMostSlots | src/bingo/__main__.py:58-63 | the count never exceeds the number of slots |
| BingoCard.FreshCardNothingCompleted | src/bingo/__main__.py:25 | a card whose slots are all None counts 0 |
| BingoCard.AllCompletedIff | src/bingo/__main__.py:58-63 | the count equals the number of slots iff every slot is filled |
| Utils.NatToString | src/utils.py:93 | `str(n)` is a non-empty digit string that reads back as n, with a leading '0' only for 0 |
| Utils.IntToString | src/utils.py:93 | `str(i)` starts with '-' exactly for negative i, followed by the spelling of its magnitude |
| Utils.ParseInteger | src/utils.py:67-71 | accepted iff the text is one or more ASCII digits, optionally after a single '+' or '-' (so "+-5", "-1a", "" and "abc" are None); the digits are read as their decimal value, negated after '-' ("+7" is 7) |
| Utils.ParseIntegerRoundTrip | src/utils.py:67-69 | `parse_integer(str(n)) == n` for every integer n |
| Utils.IntToStringInjective | src/utils.py:67-69 | distinct integers have distinct spellings |
| Utils.ParseIntegerLeadingZero | src/utils.py:69 | a leading zero does not change the value read |
| Utils.Lower | src/utils.py:75 | ASCII lower-casing: each letter A-Z becomes a-z, every other character is kept, and the length is unchanged |
| Utils.LowerMatchesWord | src/utils.py:75-76 | for a lower-case word w, `value.lower() == w` iff value equals w ignoring case |
| Utils.ParseBoolean | src/utils.py:74-80 | True iff the value equals "true", "t" or "1" ignoring case; False iff it equals "false", "f" or "0"; None iff neither |
| Utils.BooleanWordsDisjoint | src/utils.py:76-79 | no value is both a true spelling and a false spelling |
| Utils.ParseBooleanIgnoresCase | src/utils.py:75 | values that agree ignoring case parse alike |
| Utils.HexPrefixLength | src/utils.py:84 | the longest prefix of hex digits `[A-Fa-f0-9]` |
| Utils.HexPatternMatch | src/utils.py:84-85 | the anchored pattern matches iff the value is 8, 6, 3 or 4 hex digits, optionally followed by one final newline |
| Utils.ParseHexColor | src/utils.py:83-87 | accepted iff the value is 3, 4, 6 or 8 hex digits (with Python's `$`, optionally plus one final "\n"); on acceptance the result is "#" + value unchanged |
| Utils.HexColorLengths | src/utils.py:84-85 | without a trailing newline an accepted value has length 3, 4, 6 or 8 |
| Utils.RoundTenths | src/utils.py:92 | value/100 rounded exactly to the nearest integer, ties to even: within 50 of value/100 scaled back, and even on an exact tie |
| Utils.Decimal1 | src/utils.py:92 | the float text is the shortest decimal `str` of the whole part (which parses back), a '.', and the tenths digit |
| Utils.KFormatterWith | src/utils.py:90-93 | values up to 999 are exactly `str(value)` and parse back; larger ones end with the suffix after a one-decimal rendering of the rounded thousands |
| Utils.KFormatter | src/utils.py:90-93 | as written: plain `str(value)` up to 999, otherwise the text ends with "ะบ" |
| Utils.KFormatterIntended | src/utils.py:90-93 | corrected: plain up to 999, otherwise the text ends with the Cyrillic "к" |
| Utils.SuffixIsMisdecodedKa | src/utils.py:92 | the written suffix is the UTF-8 bytes of "к" (D0 BA) decoded as Windows-874 |
| Utils.KFormatterShowsThaiSuffix | src/utils.py:92 | 1500 formats as "1.5ะบ" as written and as "1.5к" corrected |
| UserFetcher.TotalWeight | src/fetchers/user_fetcher.py:21-27 | TOTAL_WEIGHT = 2 + 1 + 3 + 3 + 1 = 10 |
| UserFetcher.TotalAnyKey | src/fetchers/user_fetcher.py:84-89 | the total does not depend on the order the lists are visited in |
| UserFetcher.TotalEmpty | src/fetchers/user_fetcher.py:84-89 | an empty dict totals 0 |
| UserFetcher.GetScoreCount | src/fetchers/user_fetcher.py:84-89 | the nested loops return the sum of every `value` over all lists |
| UserFetcher.Rank | src/fetchers/user_fetcher.py:66-79 | the chain always yields one of S+, S, A++, A+, A, B+, B |
| UserFetcher.RankByBands | src/fetchers/user_fetcher.py:66-79 | the rank is the band whose position is the number of bounds 0.1, 0.25, 0.4, 0.55, 0.7, 0.8 the score exceeds |
| UserFetcher.RankMonotone | src/fetchers/user_fetcher.py:66-79 | a lower score never yields a worse rank |
| UserFetcher.Truncate | src/fetchers/user_fetcher.py:81 | `int(x)` truncates toward zero |
| UserFetcher.TitleCount | src/fetchers/user_fetcher.py:58 | `am_count or 1` is never zero and is am_count when that is non-zero |
| UserFetcher.ScoresPerTitle | src/fetchers/user_fetcher.py:58 | the ratio is defined for every count and exact when am_count is non-zero |
| UserFetcher.CalculateRank | src/fetchers/user_fetcher.py:66-81 | the rank of the band and the percentage `int(score * 100)` of a non-negative score |

## Findings

| source | as written | input that shows it | evidently intended | confidence | as-written member | corrected member |
|---|---|---|---|---|---|---|
| src/utils.py:92 | the thousands suffix is "ะบ" (U+0E30 U+0E1A, Thai), which is the UTF-8 bytes D0 BA of Cyrillic "к" read as Windows-874 | `k_formatter(1500)` gives "1.5ะบ" | "1.5к", "к" for "тысяч" on a Russian-language site | not executed; medium (the file text carries the Thai characters; whether every copy of the repository does is not known) | Utils.KFormatter (shown by Utils.KFormatterShowsThaiSuffix and Utils.SuffixIsMisdecodedKa) | Utils.KFormatterIntended |

## Left out

- Metadata fetching and caching are not modelled. This covers `ShikimoriAPI` requests, `get_product_related`, and the `cashews` cache. They are network calls, so the `Api` oracle (pure functions of product type and id) stands in for them.
- A nested mutable combinator is not modelled. A child of an `AndCheck`/`OrCheck`, and the operand of an `InvertCheck` (`~x` keeps `x` by reference), is stored as its meaning at the time it was added. After `y = ~x`, a later `x & c` changes what `y` means in Python but not in the model. Later in-place appends to a nested child object are not reflected, and neither are cycles such as `a & a`. The source's catalog never does either.
- The numpy draw's probabilities and their normalisation (`p /= p.sum()`) are left out because they are floating-point randomness. Only the bounds, distinctness and error cases of the draw are modelled. The card is a map, so key order is not modelled.
- Some numpy error cases are not modelled:
  - the probability-sum tolerance;
  - "fewer non-zero entries in p than size". It cannot happen, because every catalog weight is positive (`BingoChecks.CatalogWeights`).
- `db_get_bingo_card`, `db_update_bingo_card` and src/database.py are left out because they are database I/O. The reconciliation loop that would use `count_completed_tasks` is not part of this model.
- The product types of a request are the closed datatype `ProductType`. Strings outside it, which would simply match no task, are not modelled.
- `measure_text`, `wrap_text_multiline`, `calculate_ring_progress` and the card templates are left out because they use floating-point font metrics, pi and rendering.
- `expsf` and the floating-point score of `calculate_rank` are left out. The score is an input (`real`).
- UserFetcher.Rank: compares against the exact decimals 0.1, 0.25, …. A Python float that is exactly the double nearest a threshold (e.g. the double 0.1, which is slightly above 1/10) gets the better rank in Python (S+ for the double 0.1) and the next one here.
- UserFetcher.CalculateRank: the percentage is `int` of the real product `score * 100`. The rounding of the floating-point product is not modelled.
- Utils.ParseInteger: accepts only an optional sign and ASCII digits. Python's `int()` also accepts surrounding whitespace, underscores between digits and non-ASCII decimal digits.
- Utils.ParseBoolean: `lower()` is modelled on ASCII letters only. Non-ASCII characters are left unchanged, which gives the same accept sets for these ASCII words except for characters whose Unicode lower case is an ASCII letter (such as KELVIN SIGN → 'k', none of which occur in these words).
- Utils.KFormatter: rounds exactly, half to even, on value/100. Python's `round` works on the binary double `value / 1000`, so ties can land differently (1050 gives "1.1" in Python and "1.0" here). For values above about 10^16 the text stops matching Python: the double `value / 1000` is no longer the exact quotient, and near 10^19 the float text switches to exponent notation.
- Utils.RoundTenths: rounds the exact quotient value/100 half to even. Python's `round(value / 1000, 1)` rounds the binary double nearest to value/1000, so a value ending in 50 goes to the side that double lies on: 1150 gives 12 tenths here and 1.1 in Python, 1050 gives 10 here and 1.1 in Python. Modelling the double is left out because it is floating point.
- Utils.Lower: lowers ASCII letters only and always keeps the length. Python's `str.lower()` also lowers non-ASCII letters (Cyrillic among them), and a few characters lower to two (`'İ'.lower()` has length 2).
- BingoChecks: `str.isdigit` in the "digit in the title" tasks is modelled for ASCII digits only.
- `src/bingo/type_hints.py` is not part of this model. `ProductType` is taken to be the three strings "anime", "manga" and "ranobe".
