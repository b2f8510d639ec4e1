# PredictEdge core in Dafny

PredictEdge is a football-tips web application. Its core is the Football Line
Engine (FLE). The engine turns season statistics, head-to-head history and
bookmaker odds into one verdict per betting market: a strength from TRAP to
BANKER, a confidence percentage and a no-bet flag. It covers four markets:
over 1.5, 2.5 and 3.5 goals, and both teams to score. Around the engine sit
several serverless handlers: the odds feed with its 30-minute cache, the
head-to-head summary, and the admin overview with its tallies. Two of them
keep in-process logs: the results log, capped at 500 entries, and the
challenge submissions log. There is also the browser-side account context,
which handles sign-up, updates and saved picks.

The model has these modules, one concern each:

- `Common`, `JsText`: the shared values and JavaScript string operations.
  These are `Math.round`, `slice(-n)`, `trim`, ASCII `toLowerCase`, `includes`
  and a code-unit string order.
- `Poisson`: `poissonPMF` and `poissonOverProb`. Both are methods with their
  loops, proved against recursive specification functions.
- `OddsFeed`: how the odds handler normalises events, and its cache
  (`OddsService`, a class over the module-level cache).
- `Prices`: collecting the Over/Yes prices, sorting them in place, and the
  median, extremes and implied probability.
- `HeadToHead`: the finished-match filter and `computeSummary`.
- `EngineTypes`, `Fle`: FLE v0.3: the strength steps, `calcOver`,
  `calcBTTS`, the odds layer, the verdict and `runFLE`.
- `FleProperties`: the properties of `runFLE` as a whole.
- `FleV2`: the older engine, FLE v0.2.
- `Refinement`: shows that v0.3 without odds agrees with v0.2.
- `OddsKeyMap`: competition codes to sport keys, fixture matching,
  `extractMarketOdds` and the market parameters.
- `Admin`: the admin handler: the merge, summary counts, tallies, sorts and
  the password gate.
- `ResultsLog`, `ChallengeLog`, `AuthContext`: the three stateful
  collections, each modelled as a class.

Some inputs become parameters:

- `Math.exp(-x)` is a function parameter `e`. The facts the proofs need are
  lemma hypotheses: `IsNegExp` says 0 < e(x) ≤ 1 for x ≥ 0, and
  `MassAtMostOne` says the Poisson partial sums stay at most 1.
- Clock readings, generated ids, request bodies, environment variables and
  the results of network calls are parameters too.
- Date parsing is a parameter `parse`.

Three facts of the engine's code that the model carries:

- The odds floor is 50 (`ODDS_FLOOR`, src/engines/fle.js:27).
- The low-odds conflict reason is `market_low_prob` (src/engines/fle.js:111-113).
- `noBet` is `isConflict || strength === 'TRAP'` (src/engines/fle.js:160), so
  an entry that is TRAP because the market implies a low chance has `noBet`
  set.

## Model

| member | source | states |
|---|---|---|
| Common.Round | src/engines/fle.js:136-138 | `Math.round` as floor(x + 1/2): the result is within half a unit of x, and ties round up |
| Common.RoundMonotone | src/engines/fle.js:184 | rounding preserves order, which keeps the rounded blends ordered |
| Common.LastN | api/challenge/submit.js:6 | `slice(-n)`: min(n, length) elements, and they are a suffix of the input |
| JsText.ToLower | src/context/AuthContext.jsx:29 | `toLowerCase` keeps the length and maps each character through the ASCII lower-case mapping |
| JsText.TrimStart | src/context/AuthContext.jsx:28 | the result is a suffix, it starts with a non-space, and only white space was removed |
| JsText.TrimEnd | src/context/AuthContext.jsx:28 | the result is a prefix, it ends with a non-space, and only white space was removed |
| JsText.Trim | src/context/AuthContext.jsx:28 | `trim`: both ends are non-space, and no character is introduced |
| JsText.TrimMargins | src/context/AuthContext.jsx:28 | `trim` removes a run of white space at each end and keeps the text between |
| JsText.TrimNoSpace | admin.js:82 | a string with no white space is left unchanged by trim |
| JsText.TrimFixed | src/context/AuthContext.jsx:28 | trim leaves a string with non-space ends unchanged; hence it is idempotent |
| JsText.Take | admin.js:72 | `substring(0, n)`: a prefix of length min(n, length) |
| JsText.BeforeFirst | admin.js:82 | `split(sep)[0]`: the prefix that ends at the first separator, or the whole string when there is none |
| JsText.ContainsAt | src/oddsKeyMap.js:55-56 | `includes` holds exactly when the needle occurs at some position |
| JsText.LexLeTotal | admin.js:76 | the string order used for sorting days is total |
| JsText.LexLeTransitive | admin.js:76 | the string order is transitive |
| JsText.LexLeAntisymmetric | admin.js:76 | the string order is antisymmetric |
| Poisson.PoissonPmf | src/engines/fle.js:262-266 | the loop computes e(λ)·λ^k/k!, the specification `Pmf` |
| Poisson.PoissonOverProb | src/engines/fle.js:256-260 | the loop sums the first floor(line)+1 terms and returns round((1 − under)·100), the specification `OverTail` |
| Poisson.PmfNonnegative | src/engines/fle.js:262-266 | every Poisson term is non-negative for λ ≥ 0 |
| Poisson.UnderMassNonnegative | src/engines/fle.js:258 | the under-mass is non-negative |
| Poisson.UnderMassMonotone | src/engines/fle.js:258 | more terms give at least as much under-mass |
| Poisson.UnderMassIncludesFirstTerm | src/engines/fle.js:258 | the under-mass for a non-negative line is at least e(λ) > 0 |
| Poisson.OverTailAtMost100 | src/engines/fle.js:259 | the over percentage is at most 100 |
| Poisson.OverTailNonnegative | src/engines/fle.js:259 | when the partial sums stay at most 1, the over percentage is non-negative |
| Poisson.OverTailAntitone | src/engines/fle.js:256-260 | a higher line never has a higher over percentage |
| Poisson.OverLinesOrdered | src/engines/fle.js:81-86 | over 3.5 ≤ over 2.5 ≤ over 1.5 ≤ 100 for the same expected goals |
| Poisson.ScoringChance | src/engines/fle.js:195-196 | the chance that a side scores, 1 − P(0), lies in [0, 1) |
| OddsFeed.EntriesInPresent | api/odds/odds.js:64-69 | one bookmaker contributes entries for a key exactly when it lists a market with that key |
| OddsFeed.EntriesPresent | api/odds/odds.js:63-70 | an event has entries for a key exactly when some bookmaker lists it |
| OddsFeed.NormalisedTableShape | api/odds/odds.js:54-73 | the `markets` table of a normalised event has exactly the listed keys, each with a non-empty list |
| OddsFeed.AddBookmaker | api/odds/odds.js:64-69 | one bookmaker's loop adds exactly that bookmaker's market keys, and appends its entries for each key, in order, after the earlier ones |
| OddsFeed.NormaliseEvent | api/odds/odds.js:55-72 | the nested loops build exactly the specification table `Normalised` |
| OddsFeed.AllNormalised | api/odds/odds.js:54 | one normalised event per API event, in order |
| OddsFeed.NormaliseEvents | api/odds/odds.js:54-73 | the map over the events is `AllNormalised` |
| OddsFeed.OddsHandler | api/odds/odds.js:17-82 | the handler's replies: preflight; mock without a key; cache hit within 30 minutes; mock on 401, 422, other bad statuses and failures; otherwise fresh, and only a fresh result is stored, under its query key |
| OddsFeed.StoredResultIsServed | api/odds/odds.js:35-39 | a stored fresh result is served from cache to the same query within the TTL, leaving the cache unchanged |
| OddsFeed.OddsService.constructor | api/odds/odds.js:17 | the cache starts empty |
| OddsFeed.OddsService.Handle | api/odds/odds.js:20-83 | the imperative handler updates the cache and responds exactly as `OddsHandler` |
| Prices.OutcomePricesOrigin | src/engines/fle.js:234-238 | a price is collected from a bookmaker exactly when an Over/Yes outcome at the line has that price |
| Prices.CollectPricesOrigin | src/engines/fle.js:232-239 | a price is collected exactly when some bookmaker's wanted outcome has that price |
| Prices.Insert | src/engines/fle.js:243 | insertion into a sorted list keeps it sorted and adds exactly the element |
| Prices.SortPrices | src/engines/fle.js:243 | the sort is ascending and a permutation |
| Prices.SortedUnique | src/engines/fle.js:243 | two sorted permutations of one list are equal, so any correct sort gives the same median |
| Prices.SinkInto | src/engines/fle.js:243 | one insertion step extends the sorted prefix and permutes the array |
| Prices.SortInPlace | src/engines/fle.js:243 | the in-place sort leaves the array ascending and a permutation of its contents |
| Prices.MaxOf | src/engines/fle.js:248 | `Math.max(...prices)` is an element and bounds every price from above |
| Prices.MinOf | src/oddsKeyMap.js:84 | `Math.min(...prices)` is an element and bounds every price from below |
| Prices.ExtremesOfSorted | src/oddsKeyMap.js:83-84 | sorting does not change the maximum or the minimum |
| Prices.MedianBetween | src/engines/fle.js:243-244 | the median of the sorted prices is one of the prices, between the minimum and the maximum |
| Prices.ImpliedProb | src/engines/fle.js:249 | round(100/median) is a percentage in [0, 100] for decimal odds |
| Prices.ImpliedProbAntitone | src/engines/fle.js:249 | longer odds never imply a higher probability |
| Prices.CollectTargetPrices | src/engines/fle.js:232-239 | the nested loops collect exactly `CollectPrices` |
| Prices.SortedCopy | src/engines/fle.js:243 | sorting a copy in place gives `SortPrices` |
| HeadToHead.BttsMeansTwoGoals | api/football/h2h.js:44-54 | a meeting counts as BTTS only with two or more goals |
| HeadToHead.Finished | api/football/h2h.js:42 | the filter keeps only FINISHED matches |
| HeadToHead.FinishedMembers | api/football/h2h.js:42 | a match is kept exactly when it is in the list and FINISHED |
| HeadToHead.FinishedMeetings | api/football/h2h.js:41-56 | one meeting per finished match, in order |
| HeadToHead.CountBtts | api/football/h2h.js:74 | the BTTS count is at most the number of meetings |
| HeadToHead.CountOver | api/football/h2h.js:75-77 | the over count is at most the number of meetings |
| HeadToHead.Rate | api/football/h2h.js:74-77 | a rate of count ≤ n is a percentage in [0, 100] |
| HeadToHead.RateMonotone | api/football/h2h.js:74-77 | a larger count gives a rate at least as large |
| HeadToHead.CountOverAntitone | api/football/h2h.js:75-77 | a higher line never has more overs |
| HeadToHead.BttsAtMostOver15 | api/football/h2h.js:74-75 | when every BTTS meeting has two goals, the BTTS count is at most the over-1.5 count |
| HeadToHead.BttsRateBound | api/football/h2h.js:74-75 | the same for the rates |
| HeadToHead.ComputeSummary | api/football/h2h.js:67-83 | no meetings give the mock summary; otherwise n, `Math.round(count/n*100)` for the BTTS and the three over counts, and the average goals rounded to cents; the over rates are ordered and BTTS ≤ over 1.5 |
| HeadToHead.MeetingsAreConsistent | api/football/h2h.js:44-54 | the meetings built from finished matches satisfy the BTTS / goals relation |
| HeadToHead.SummaryOf | api/football/h2h.js:41-58 | the summary of the API matches counts the finished ones, and its rates are ordered |
| EngineTypes.BlendBetween | src/engines/fle.js:184 | the 60/40 blend lies between its two inputs |
| EngineTypes.BlendNearSeason | src/engines/fle.js:183-184 | without a conflict, the blend is within 7 points of the season figure |
| Fle.ProbabilityToStrength | src/engines/fle.js:29-36 | the strength's rank is the number of thresholds 60/70/80/85/90 reached |
| Fle.StrengthMonotone | src/engines/fle.js:29-36 | a higher probability never gives a weaker strength |
| Fle.StrengthBoundaries | src/engines/fle.js:29-36 | TRAP exactly below 60; the steps at 90/89 and 60/59 |
| Fle.CalcOver | src/engines/fle.js:169-191 | the probability is capped at 97, and a conflict needs enough meetings |
| Fle.CalcBtts | src/engines/fle.js:194-215 | the probability is capped at 97, and a conflict needs enough meetings |
| Fle.BttsStatProbBounds | src/engines/fle.js:195-197 | the season BTTS estimate is a percentage |
| Fle.BlendMonotone | src/engines/fle.js:184 | the blend is monotone in both inputs |
| Fle.OverProbsOrdered | src/engines/fle.js:81-86 | with ordered head-to-head rates, over 3.5 ≤ over 2.5 ≤ over 1.5 for the same match |
| Fle.MarketIdToParams | src/engines/fle.js:218-226 | parameters exist exactly for the four known ids: totals at the id's line (1.5, 2.5, 3.5) and btts without a line |
| Fle.Quote | src/engines/fle.js:230-252 | none exactly when no wanted price; otherwise the median rounded to cents, the implied percentage of the median, the highest price, the entry count and the line |
| Fle.BestOddsOf | src/engines/fle.js:228-253 | none exactly when the market is absent or no wanted price is quoted; otherwise the quote |
| Fle.QuoteMarket | src/engines/fle.js:230-252 | the loops compute `Quote` |
| Fle.ExtractBestOdds | src/engines/fle.js:228-253 | the method computes `BestOddsOf` |
| Fle.StatFor | src/engines/fle.js:81-91 | the dispatched probability is capped at 97; conflict holds exactly when there are enough meetings and the gap exceeds 18 |
| Fle.CheckOdds | src/engines/fle.js:110-124 | a conflict always has a reason; a low implied chance (< 50) comes first, then a gap > 20; a note exactly when quoted |
| Fle.FinalProb | src/engines/fle.js:134-138 | the confidence is at most 97 |
| Fle.SignalFor | src/engines/fle.js:57-91 | an entry exactly for tier ids that are known markets or meet insufficient data, with its own id |
| Fle.CheckQuote | src/engines/fle.js:110-124 | the conflict tests on an extracted quote compute `CheckOdds` |
| Fle.OddsLayer | src/engines/fle.js:94-127 | the odds layer yields the market quote, its implied chance, the odds check, and `ODDS_API` appended only with a quote |
| Fle.Verdict | src/engines/fle.js:129-162 | the verdict step builds `VerdictOf` |
| Fle.Analyse | src/engines/fle.js:58-162 | one loop iteration yields `SignalFor` |
| Fle.RunFle | src/engines/fle.js:49-166 | the loop yields `Signals` over the requested markets |
| FleProperties.Surviving | src/engines/fle.js:57-91 | every id kept is in the tier and is known or meets insufficient data |
| FleProperties.SurvivingMembers | src/engines/fle.js:57-91 | an id is kept exactly when requested and surviving |
| FleProperties.SignalsAreSurvivors | src/engines/fle.js:57-165 | one entry per surviving id, in request order, each that id's entry |
| FleProperties.SignalCoherent | src/engines/fle.js:130-160 | every entry: a conflict means TRAP; noBet exactly when a reason or TRAP; confidence ≤ 97; without a reason, TRAP exactly below 60 |
| FleProperties.AllSignalsCoherent | src/engines/fle.js:49-166 | every entry of the result is coherent |
| FleProperties.InsufficientEverywhere | src/engines/fle.js:52-75 | with fewer than 5 matches on a side, every entry is TRAP, 0, 0, noBet, `insufficient_data`, one per tier id requested |
| FleProperties.StatH2HConflictIff | src/engines/fle.js:130-131 | the reason is `stat_h2h_diverge` exactly when there are enough meetings and the gap exceeds 18 |
| FleProperties.ModelProbRule | src/engines/fle.js:176-190 | the model probability is the capped 60/40 blend with enough meetings, else the season figure |
| FleProperties.OddsConflictOrder | src/engines/fle.js:110-131 | the odds reasons in order, and never reported over a head-to-head conflict |
| FleProperties.ConfidenceRule | src/engines/fle.js:134-138 | the confidence is the capped 70/30 blend exactly when quoted without an odds conflict, else the model probability |
| FleProperties.SeasonProbBounds | src/engines/fle.js:174-197 | the season figure of calcOver and calcBTTS is a percentage under the exp facts |
| FleProperties.OddsBlendBounds | src/engines/fle.js:136 | the 70/30 blend of percentages is a percentage |
| FleProperties.ConfidenceBounds | src/engines/fle.js:134-154 | both the model probability and the confidence lie in [0, 97] |
| FleV2.ProbabilityToStrength | predictedge-v3/src/engines/fle.js:11-18 | the rank is the number of thresholds reached |
| FleV2.TrapBelow60 | predictedge-v3/src/engines/fle.js:11-18 | TRAP exactly below 60 |
| FleV2.CalcOver | predictedge-v3/src/engines/fle.js:77-100 | capped at 97; a conflict exactly when there are enough meetings and the gap exceeds 18 |
| FleV2.CalcBtts | predictedge-v3/src/engines/fle.js:103-126 | capped at 97; a conflict exactly when there are enough meetings and the BTTS gap exceeds 18 |
| FleV2.BlendedRounding | predictedge-v3/src/engines/fle.js:92-99 | rounding after the unrounded blend equals the rounded blend |
| FleV2.StatFor | predictedge-v3/src/engines/fle.js:48-58 | the dispatched probability is capped at 97 |
| FleV2.SignalFor | predictedge-v3/src/engines/fle.js:29-70 | an entry exactly for tier ids that are known markets or meet insufficient data |
| FleV2.Analyse | predictedge-v3/src/engines/fle.js:30-70 | one loop iteration yields `SignalFor` |
| FleV2.RunFle | predictedge-v3/src/engines/fle.js:20-74 | the loop yields `Signals` |
| FleV2.Surviving | predictedge-v3/src/engines/fle.js:29-58 | every kept id survives the filters |
| FleV2.SurvivingMembers | predictedge-v3/src/engines/fle.js:29-58 | an id is kept exactly when requested and surviving |
| FleV2.SignalsAreSurvivors | predictedge-v3/src/engines/fle.js:29-73 | one entry per surviving id, in order |
| FleV2.SignalCoherent | predictedge-v3/src/engines/fle.js:60-69 | a conflict note means TRAP and noBet; noBet exactly for a conflict or TRAP; confidence ≤ 97 |
| FleV2.AllSignalsCoherent | predictedge-v3/src/engines/fle.js:20-74 | every entry is coherent |
| FleV2.InsufficientEverywhere | predictedge-v3/src/engines/fle.js:23-42 | with insufficient data, every entry is TRAP, 0 and noBet, one per tier id requested |
| FleV2.ConflictAndBlend | predictedge-v3/src/engines/fle.js:60-67 | the conflict note exactly when enough meetings and the gap exceeds 18; the confidence is the capped blend |
| Refinement.StrengthAgrees | predictedge-v3/src/engines/fle.js:11-18 | both versions map every probability to the same strength |
| Refinement.StatAgrees | src/engines/fle.js:169-215 | v0.3's calcOver and calcBTTS agree with v0.2's on probability and conflict |
| Refinement.SignalAgrees | src/engines/fle.js:57-162 | without a quote, the versions yield entries for the same ids that agree on strength, confidence and noBet |
| Refinement.SignalsAgree | src/engines/fle.js:57-165 | without odds, the result lists have the same length and agree entry by entry |
| Refinement.RunFleAgrees | src/engines/fle.js:49-166 | runFLE without odds agrees with v0.2's runFLE |
| Refinement.MarketTablesAgree | src/oddsKeyMap.js:102-110 | the engine's market table is the one the odds key module exports |
| OddsKeyMap.GetOddsKeyAsWritten | src/oddsKeyMap.js:27-29 | as written: a mapped key exactly for the ten codes; null only for codes that are neither mapped nor Object.prototype members |
| OddsKeyMap.AsWrittenLeaksPrototype | src/oddsKeyMap.js:27-29 | as written, the unmapped code `constructor` does not yield null |
| OddsKeyMap.GetOddsKey | src/oddsKeyMap.js:12-29 | a sport key only for a mapped code, and it is that code's key |
| OddsKeyMap.GetOddsKeyTable | src/oddsKeyMap.js:12-25 | the ten codes and their sport keys; every other code, `constructor` included, gives null |
| OddsKeyMap.GetOddsKeyAgreesElsewhere | src/oddsKeyMap.js:27-29 | on codes that are not prototype members, the corrected lookup and the code as written agree |
| OddsKeyMap.StripSuffix | src/oddsKeyMap.js:38-39 | a suffix preceded by white space is removed with the whole run of white space before it; otherwise the name is unchanged |
| OddsKeyMap.ReplaceWordIdentity | src/oddsKeyMap.js:42 | replacing a whole word by itself changes nothing |
| OddsKeyMap.KeepLowerAlnum | src/oddsKeyMap.js:43 | the result holds exactly the input's [a-z0-9] characters |
| OddsKeyMap.Normalize | src/oddsKeyMap.js:36-44 | a normalised name has only [a-z0-9], and it is the chain of replacements |
| OddsKeyMap.AtleticoIsIdentity | src/oddsKeyMap.js:42 | the `atletico` rewrite is the identity |
| OddsKeyMap.MatchOddsToFixture | src/oddsKeyMap.js:35-59 | a match exactly when each side's normalised names contain one another |
| OddsKeyMap.MatchReflexive | src/oddsKeyMap.js:52 | an event always matches a fixture with the same team names |
| OddsKeyMap.EmptyNameMatches | src/oddsKeyMap.js:55-56 | a name that normalises to empty matches every name |
| OddsKeyMap.SideMatchesAt | src/oddsKeyMap.js:55-56 | one side matches exactly when either normalised name occurs in the other |
| OddsKeyMap.MarketOddsOf | src/oddsKeyMap.js:65-97 | none when the market is absent or no wanted price; otherwise the unrounded median (one of the prices), with worst ≤ median ≤ best, the implied chance, the count and the key |
| OddsKeyMap.ExtractMarketOdds | src/oddsKeyMap.js:65-97 | the loops compute `MarketOddsOf` |
| OddsKeyMap.PointlessOutcomeCounts | src/oddsKeyMap.js:74 | an Over/Yes outcome without a point is collected at every line |
| OddsKeyMap.MarketIdToOddsParams | src/oddsKeyMap.js:102-110 | parameters exist exactly for o15/o25/o35/btts: totals at the same line the season model uses, btts without a line |
| Admin.FindProfile | admin.js:44 | a profile of the list with that id, or none exactly when no profile has it |
| Admin.FindStat | admin.js:45 | a stats row of the list for that user, or none exactly when no row has it |
| Admin.FindProfileFirst | admin.js:44 | `find` returns the first profile with the id |
| Admin.FindStatFirst | admin.js:45 | `find` returns the first stats row of the user |
| Admin.MergeOne | admin.js:46-57 | the merged record has the auth id, email and creation time; the provider defaults to `email` and is never empty; confirmed exactly when the confirmation time is set |
| Admin.MergeAll | admin.js:43-58 | one merged record per auth user, in auth order |
| Admin.CountConfirmed | admin.js:63 | the confirmed users are at most all users |
| Admin.CountActive | admin.js:64-65 | the active users are at most all users |
| Admin.CountActiveMonotone | admin.js:64-65 | a wider window counts at least as many, so active today ≤ active this week |
| Admin.IndexOf | admin.js:73 | the position of the key, or −1 exactly when absent |
| Admin.Tally | admin.js:69-74 | the counting loop builds `TallyOf` |
| Admin.TotalUpdate | admin.js:73 | updating one count changes the total by the difference |
| Admin.IndexOfDistinct | admin.js:73 | in a tally with distinct keys the lookup finds the one entry |
| Admin.BumpCorrect | admin.js:73 | one increment keeps the keys distinct, adds one to that key's count and to the total |
| Admin.TallyCorrect | admin.js:69-91 | a tally has distinct keys, each key's count is its number of occurrences, and the counts sum to the input length |
| Admin.InsertByKey | admin.js:76 | insertion by key keeps the list sorted and adds exactly the element |
| Admin.SortByKey | admin.js:75-76 | sorting by key gives an ascending permutation |
| Admin.InsertByCount | admin.js:86 | insertion by count keeps the list non-increasing and adds exactly the element |
| Admin.SortByCount | admin.js:85-86 | sorting by count gives a non-increasing permutation |
| Admin.SignupDays | admin.js:70-72 | a day is listed exactly when some user's `created_at` is truthy and begins with it (its first ten characters); at most one day per user |
| Admin.Head | admin.js:82 | the text before the first separator with its white-space margins removed |
| Admin.Bucket | admin.js:82 | the fallback for an empty subject or an empty head, else the comma head of the em-dash head; never empty, no em dash or comma, trimmed |
| Admin.SubjectKey | admin.js:82 | `Unknown` for an empty subject or an empty head, otherwise the head before the first comma of the head before the first em dash; never empty, no em dash or comma, trimmed |
| Admin.SubjectKeys | admin.js:81-83 | one bucket per merged user, in order |
| Admin.Providers | admin.js:91 | one provider per merged user, in order |
| Admin.SummaryOf | admin.js:60-67 | the total is the number of users; confirmed ≤ total; active today ≤ active this week ≤ total |
| Admin.FirstN | admin.js:87 | `slice(0, n)`: a prefix of length min(n, length) |
| Admin.SignupsByDay | admin.js:69-76 | the days sorted ascending, a permutation of the tally |
| Admin.ComputeOverview | admin.js:43-99 | the method computes `OverviewOf` |
| Admin.TallyKeysFrom | admin.js:69-74 | every tallied key comes from the input |
| Admin.SignupChartShape | admin.js:75-78 | the chart is ascending, at most 30 entries, the latest days, each the first ten characters of some user's `created_at` |
| Admin.SubjectsShape | admin.js:80-88 | at most 15 subjects, non-increasing by count, over a tally whose counts are exact and sum to the user count |
| Admin.ProvidersShape | admin.js:90-91 | one entry per provider; the counts are exact and sum to the user count |
| Admin.Handle | admin.js:2-112 | an unauthorised POST gets 401 and no fetch; fetches happen only when authorised and configured; an overview exactly for an authorised, configured `overview` action |
| ResultsLog.Stamped | api/results/save.js:16-20 | the stamp is always server time; a body `id` overrides the generated id; other body fields are kept |
| ResultsLog.AfterSave | api/results/save.js:21-23 | the entry is last; at most the oldest is evicted; the log stays at most 500 long |
| ResultsLog.SaveKeepsLatest | api/results/save.js:5-23 | a save keeps the log equal to the latest (up to) 500 saves, in order |
| ResultsLog.ResultLog.constructor | api/results/save.js:5 | the log starts empty |
| ResultsLog.ResultLog.Handle | api/results/save.js:8-24 | non-POST gets 405 and no change; an unparsable body changes nothing; a POST appends the stamped entry, evicting the oldest above 500; the log is always the latest 500 saves |
| ChallengeLog.Listing | api/challenge/submit.js:5-7 | GET: the last min(100, n) entries in order, and the total n |
| ChallengeLog.NewestIsListed | api/challenge/submit.js:6-16 | a new submission is the last listed entry, and the total grows by one |
| ChallengeLog.Submissions.constructor | api/challenge/submit.js:1 | the log starts empty |
| ChallengeLog.Submissions.Handle | api/challenge/submit.js:3-17 | OPTIONS and GET change nothing; other methods get 405; a POST appends exactly one stamped entry and keeps the earlier ones; the length equals the number of accepted POSTs |
| AuthContext.HasIdIff | src/context/AuthContext.jsx:67 | `some(p => p.id === id)` holds exactly when some saved pick has that id |
| AuthContext.HasIdConcat | src/context/AuthContext.jsx:60-61 | an id is in a concatenation exactly when it is in one part |
| AuthContext.Without | src/context/AuthContext.jsx:61 | the filter keeps exactly the picks of other ids |
| AuthContext.WithoutConcat | src/context/AuthContext.jsx:61 | the filter distributes over concatenation, so the kept picks keep their order |
| AuthContext.WithoutAbsent | src/context/AuthContext.jsx:61 | filtering an absent id changes nothing |
| AuthContext.HasIdWithout | src/context/AuthContext.jsx:61 | after the filter, an id is present exactly when it was and differs from the removed one |
| AuthContext.Stamp | src/context/AuthContext.jsx:61 | the stamped pick keeps its id and carries the save time |
| AuthContext.ToggleAppends | src/context/AuthContext.jsx:58-61 | an unsaved pick is appended last, stamped, after the unchanged earlier picks |
| AuthContext.ToggleRemoves | src/context/AuthContext.jsx:60-61 | a saved pick's id is removed everywhere, and other ids stay as they were |
| AuthContext.ToggleTwice | src/context/AuthContext.jsx:58-65 | two saves of one pick restore the set of saved ids, and the list itself when it was unsaved |
| AuthContext.UpdatedUser | src/context/AuthContext.jsx:49-56 | no user stays no user; otherwise update fields override, other fields are kept, and no field appears from nowhere |
| AuthContext.UpdateIdempotent | src/context/AuthContext.jsx:52 | applying the same update twice equals applying it once |
| AuthContext.NormalEmail | src/context/AuthContext.jsx:29 | the stored email has no white space at its ends and no ASCII upper-case letter |
| AuthContext.NewUser | src/context/AuthContext.jsx:25-37 | sign-up fails exactly when the trimmed name is empty; the account has exactly the nine fields |
| AuthContext.NewUserFields | src/context/AuthContext.jsx:28-31 | the stored name is the trimmed input and the avatar is its upper-cased first character |
| AuthContext.NewUserEmail | src/context/AuthContext.jsx:29 | the stored email is the trimmed, lower-cased input |
| AuthContext.NewUserDefaults | src/context/AuthContext.jsx:33-36 | a new account is on plan FREE with streak, totalPicks and points 0 |
| AuthContext.ToLowerTwice | src/context/AuthContext.jsx:29 | lower-casing is idempotent |
| AuthContext.NewUserStable | src/context/AuthContext.jsx:28-31 | signing up with the stored name and email stores them unchanged |
| AuthContext.AuthProvider.constructor | src/context/AuthContext.jsx:9-11 | signed out, modal closed, no saved picks |
| AuthContext.AuthProvider.SignUp | src/context/AuthContext.jsx:25-42 | on success the user is the new account and the modal is closed; on failure nothing changes |
| AuthContext.AuthProvider.LogOut | src/context/AuthContext.jsx:44-47 | the user is gone and nothing else changes |
| AuthContext.AuthProvider.UpdateUser | src/context/AuthContext.jsx:49-56 | the user becomes `UpdatedUser` of the old one |
| AuthContext.AuthProvider.SavePick | src/context/AuthContext.jsx:58-65 | the saved picks become the toggled list; the user is untouched |
| AuthContext.AuthProvider.IsPickSaved | src/context/AuthContext.jsx:67 | true exactly when some saved pick has that id |

## Left out

- Floating point: all arithmetic is on exact reals. IEEE rounding of `0.6`,
  `0.7` and of the Poisson terms is not modelled.
- `Math.exp` is a parameter. Its properties are lemma hypotheses.
- The explanation strings of the engines are left out, including
  `toFixed(2)` formatting. The model keeps a structured note in their place,
  plus the fact that a conflict note is present.
- The insufficient-data entry's `oddsData: null` key and the `sources` list
  of v0.3 are modelled only as far as `ODDS_API` is appended. The `fixture`
  parameter of `runFLE` is unused by the code and not modelled.
- Prices are decimal odds of at least 1. The handling of a price below 1,
  at 0 or one that is not a number is not modelled.
- `JsText.ToLower`: does not model the full Unicode case mapping. Only ASCII
  letters change, so `İ`, the Kelvin sign and other non-ASCII letters are
  not covered. `toUpperCase` of the avatar initial is ASCII too, and `ß`
  would become two letters.
- Strings are sequences of code points, not UTF-16 code units, so
  `name.trim()[0]` of a surrogate pair is not modelled.
- `localeCompare` is modelled as the code-unit order. The day keys are
  ASCII digits and dashes, so the order agrees for any ISO date.
- `Object.entries` puts integer-like keys first, in ascending order. The
  tallies are modelled as insertion-ordered lists, so tie order among
  subjects named like integers is not modelled.
- Admin.SortByCount: does not state stable order among equal counts. It
  states only that the list is non-increasing and a permutation.
- Tally keys that collide with `Object.prototype` (`__proto__`,
  `constructor`) are not modelled. They are plain keys in the model.
- Date parsing (`new Date(...)`) is a parameter `parse`. An unparsable date
  makes the JavaScript comparison false, and the model treats it the same
  way.
- I/O is not modelled: network fetches, `res.status(...).json(...)`,
  headers, request-body streaming, `localStorage`, `console.error` and the
  React rendering. Network replies and parsed bodies are parameters.
- Admin: a thrown fetch or JSON error (the 500 of the catch) is not
  modelled. Failed Supabase reads arrive as empty lists, as the code
  defaults them.
- Request bodies that are JSON arrays or strings spread their index keys
  into the saved entry. The model spreads object bodies only.
- A body that fails to parse in save.js or submit.js throws inside the
  stream listener, where the handler's try/catch cannot catch it. The model
  gives no reply and no change.
- The provider's mount-time load from `localStorage`, and `setAuthModal`
  itself, are not modelled. Pick ids are compared structurally, whereas
  JavaScript compares object-valued ids by reference.
- The Poisson helpers are defined twice in the source, once per engine
  version. They are identical, so they are modelled once.

## Findings

| source | as written | input that shows it | evidently intended | confidence | as-written member | corrected member |
|---|---|---|---|---|---|---|
| src/oddsKeyMap.js:27-29 | `COMPETITION_TO_ODDS_KEY[code] ?? null` also finds members inherited from `Object.prototype` | `getOddsKey("constructor")` returns the `Object` function instead of null | null for every competition code that is not in the table | not executed | OddsKeyMap.GetOddsKeyAsWritten | OddsKeyMap.GetOddsKey |
