# Basketball odds analysis — a Dafny model of its core

The repository gathers odds for basketball games from several providers,
normalises them into one canonical document, consolidates each market across
bookmakers, and compares the result with a model's win and player-prop
probabilities. A prediction becomes a recommendation tiered `STRONG BET`,
`BET` or `NO BET`. This project models that core as pure Dafny functions and
proves what each step promises.

Modules, following the scripts:

- `Calculator`: the implied probability `1 / odds` and the expected value
  `(p - q) / q` of a bet. Both analysers carry identical copies of these two
  functions, so the model defines them once and both analysers use them.
- `Values`: the JSON values the scripts handle, Python truthiness,
  `statistics.mean`, and `float(x)` applied to provider fields.
- `Text`: ASCII `lower()`, `replace(" ", "")` and substring `in`.
- `Seqs`: small sequence helpers. One is the "map, keep the present results,
  abort on the first exception" loop that the normalisers and the
  player-props analyser share.
- `Consolidator`: `procesar_odds`. It validates the document and routes every
  moneyline, spread and total quote into one of eight buckets. Each bucket is
  then reduced to its mean, with the source's fallbacks.
- `Ranking`: the value tiers, and the top recommendation as chosen by
  Python's `max` (the first maximal element).
- `TeamAnalysis`: `generar_recomendaciones` and the top recommendation of the
  integrated report.
- `PropsFilter`: `filtrar_player_props` and the key-market test.
- `PropsAnalysis`: `obtener_mejor_odds`, `analizar_player_props` and the top
  player-prop recommendation.
- `Prematch`: the prematch normaliser. It maps the provider's market and
  outcome types onto the canonical document and groups books by a
  normalised key. It is also proved to produce only documents that
  `procesar_odds` accepts.
- `SportradarOdds`: `_process_odds_data` and the per-bookmaker merge loop of
  `process_daily_odds`.

Python exceptions are modelled as `Result` failures. A `try`/`except` that
skips one item is modelled as a `None` for that item. An exception with no
handler fails the whole call.

## Model

| member | source | states |
|---|---|---|
| Calculator.ImpliedProbability | scripts/analizador_odds.py:6-8 | None exactly for a falsy price (absent or zero); otherwise a probability whose product with the price is 1, positive for a positive price and at most 1 for a price of at least 1 |
| Calculator.ExpectedValue | scripts/analizador_odds.py:10-15 | 0 when the price or the probability is falsy; `p * odds - 1` for a numeric non-zero probability; a raising subtraction exactly when the probability is a truthy non-number |
| Calculator.ValuePositiveIffEdge | scripts/analizador_odds.py:10-15 | for a positive price, the value is positive if and only if the model probability exceeds the implied probability |
| Values.Mean | scripts/analizador_odds.py:77-85 | `mean` succeeds exactly on a non-empty list of numbers, and the result times the length equals the sum |
| Values.MeanPermutation | scripts/analizador_odds.py:78 | the mean does not depend on the order of the list |
| Values.MeanWithinBounds | scripts/analizador_odds.py:78 | the mean of values within [lo, hi] lies within [lo, hi] |
| Values.ToFloat | scripts/extraer_odds_player_props.py:70-71 | `float(get(k, default))` raises exactly on an unparseable value, or on an absent key without a default; otherwise it yields the parsed value or the default |
| Text.Lower | scripts/extraer_odds_player_props.py:32 | lower-casing keeps the length and maps each character on its own |
| Text.Contains | scripts/extraer_odds_player_props.py:34 | substring `in` holds if and only if the needle occurs at some position |
| Text.WithoutSpaces | scripts/extraer_odds_prematch.py:57 | removing spaces keeps exactly the non-space characters and never lengthens the string |
| Consolidator.RouteOutcomes | scripts/analizador_odds.py:49-70 | the outcome loop raises KeyError exactly when some outcome lacks the home team or its point; otherwise it appends to each bucket exactly that bucket's quotes |
| Consolidator.RouteMarkets | scripts/analizador_odds.py:48-70 | the market loop of one bookmaker raises KeyError exactly when some market's outcomes raise; otherwise it appends to each bucket exactly the quotes of those markets, in order |
| Consolidator.RouteBookmakers | scripts/analizador_odds.py:47-70 | the nested bookmaker/market/outcome loop raises exactly when some outcome raises; otherwise every bucket receives all its quotes in document order |
| Consolidator.PointsLeaf | scripts/analizador_odds.py:75-87 | an empty points bucket gives null; otherwise the mean when every point is a number, else the first collected point |
| Consolidator.Reduce | scripts/analizador_odds.py:72-87 | each price leaf is its bucket's mean (None when empty or non-numeric), and each points leaf follows the points fallback |
| Consolidator.ProcessOdds | scripts/analizador_odds.py:31-89 | ValueError exactly for an empty list, or for a value that is not a document with bookmakers; KeyError exactly when the routing raises; otherwise the consolidated market summarises the document's quotes |
| Consolidator.BookmakersAppend | scripts/analizador_odds.py:47-48 | the quotes of two bookmaker lists concatenated are the bucket-wise concatenation, and the loop raises if and only if either part raises |
| Consolidator.BookmakersPermutation | scripts/analizador_odds.py:47-70 | permuting the bookmakers permutes each bucket's contents and does not change whether the loop raises |
| Consolidator.BookmakerOrderIrrelevant | scripts/analizador_odds.py:47-87 | consolidation is independent of bookmaker order: same outcome, same price leaves, and the same points leaves whenever all collected points are numbers |
| Consolidator.PointsFallbackFollowsOrder | scripts/analizador_odds.py:77-80 | with one non-numeric total line, the consolidated line is whichever line was collected first, so swapping two bookmakers changes it |
| Consolidator.ConsolidatedMoneyline | scripts/analizador_odds.py:72-85 | a document whose loop does not raise consolidates to the means of its home and of its away moneyline quotes |
| Consolidator.DrawCountsAsAway | scripts/analizador_odds.py:49-54 | in a three-way moneyline, the draw price is averaged into the away price |
| Consolidator.FirstElementOnly | scripts/analizador_odds.py:33-36 | of a non-empty list, only the first element is read |
| Ranking.TierOf | scripts/analizador_odds.py:117 | STRONG BET exactly above 0.15, BET exactly in (0.05, 0.15], NO BET exactly at or below 0.05 |
| Ranking.TierMonotone | scripts/analizador_odds.py:117 | a larger value never gets a weaker tier |
| Ranking.TopBy | scripts/analizador_odds.py:138 | None exactly for an empty list; otherwise the element at a position whose key is maximal and strictly larger than every earlier key |
| Ranking.TopHasStrongestTier | scripts/analizador_odds.py:138 | when tiers follow values, the top element carries the strongest tier of the list |
| TeamAnalysis.SideOdds | scripts/analizador_odds.py:101-102 | the home price exactly when the predicted team equals the document's home team, the away price otherwise |
| TeamAnalysis.Recommend | scripts/analizador_odds.py:95-121 | a recommendation exactly for an object with prediction type `is_win`, a truthy price for its side and a probability that does not raise; it carries the prediction's fields, the price, the implied probability (1 / price), the value `p * price - 1` (0 for a falsy probability) and that value's tier |
| TeamAnalysis.Recommendations | scripts/analizador_odds.py:91-123 | at most one recommendation per prediction |
| TeamAnalysis.RecommendationsFrom | scripts/analizador_odds.py:95-121 | every recommendation in the batch is the one some prediction of the batch yields |
| TeamAnalysis.RecommendationsComplete | scripts/analizador_odds.py:95-121 | every recommendation that some prediction of the batch yields is in the batch |
| TeamAnalysis.RecommendationsSingle | scripts/analizador_odds.py:95-121 | the batch of one prediction is exactly its recommendation, or empty when it yields none; with RecommendationsAppend this fixes the batch of every list |
| TeamAnalysis.RecommendationsAppend | scripts/analizador_odds.py:95-123 | the batch of a concatenation is the concatenation of the batches (input order kept) |
| TeamAnalysis.SkipAndContinue | scripts/analizador_odds.py:119-121 | a prediction that yields nothing leaves the rest of the batch exactly as it would be without it |
| TeamAnalysis.TopRecommendation | scripts/analizador_odds.py:138 | None exactly for no recommendations; otherwise the first with the largest value |
| TeamAnalysis.TopIsStrongest | scripts/analizador_odds.py:138 | the top recommendation of a batch carries the strongest tier of the batch |
| TeamAnalysis.ScenarioConsolidates | scripts/analizador_odds.py:31-89 | two home quotes of 2.0 and 2.2 and one away quote of 1.8 consolidate to a home price of 2.1 and an away price of 1.8 |
| TeamAnalysis.StrongBetAtHomePrice | scripts/analizador_odds.py:95-117 | a home-win probability of 0.55 against a consolidated home price of 2.1 yields exactly one recommendation: value 0.155, implied probability 1 / 2.1, tier STRONG BET |
| TeamAnalysis.ScenarioStrongBet | scripts/analizador_odds.py:91-123 | a home-win probability of 0.55 against that consolidated price is a STRONG BET |
| PropsFilter.InterestingMeans | scripts/extraer_odds_player_props.py:30-36 | a market name is kept if and only if its lower-cased form contains one of the ten key phrases |
| PropsFilter.Interesting | scripts/extraer_odds_player_props.py:30-36 | a kept market name is at least as long as the shortest key phrase (12 characters) |
| PropsFilter.InterestingIgnoresCase | scripts/extraer_odds_player_props.py:31-32 | the test ignores letter case |
| PropsFilter.NamelessNeverInteresting | scripts/extraer_odds_player_props.py:55 | a market without a name is never kept |
| PropsFilter.MixedCaseNameKept | scripts/extraer_odds_player_props.py:7-36 | "Player Total Rebounds" is kept |
| PropsFilter.ConvertOutcome | scripts/extraer_odds_player_props.py:67-72 | raises exactly when the odds or the total is unparseable; the type is copied, and the odds and total are parsed with 0 as the default |
| PropsFilter.ConvertBook | scripts/extraer_odds_player_props.py:61-73 | raises exactly when some outcome raises; the id and name are copied, and outcomes are converted one-to-one in order |
| PropsFilter.ConvertMarket | scripts/extraer_odds_player_props.py:54-74 | kept exactly when interesting; only a kept market can raise, exactly when one of its books raises; the id and name are copied, and books are converted one-to-one in order |
| PropsFilter.ConvertPlayer | scripts/extraer_odds_player_props.py:47-77 | raises exactly when one of its markets raises; kept exactly when some market is interesting; the ids are copied, and the markets are exactly what the market loop keeps, in input order |
| PropsFilter.PlayerMarketsAppend | scripts/extraer_odds_player_props.py:54-74 | splitting a player's market list in two: the player raises exactly when either half raises, and the kept markets are the first half's followed by the second half's |
| PropsFilter.PlayerMarketsComplete | scripts/extraer_odds_player_props.py:54-74 | every interesting market of a player that does not raise is converted and kept in the player's markets |
| PropsFilter.FilterPlayerProps | scripts/extraer_odds_player_props.py:38-78 | raises exactly when some player raises; the event id defaults to "" and the teams are the competitors' names; every kept player has markets and comes from the feed |
| PropsFilter.NoPlayersIffAllQuiet | scripts/extraer_odds_player_props.py:75-77 | the output has no players if and only if no player has an interesting market |
| PropsFilter.FilterKeepsPlayerOrder | scripts/extraer_odds_player_props.py:47-77 | filtering two halves of the player list and concatenating gives the filtered whole |
| PropsAnalysis.Quotes | scripts/analizador_odds_player_props.py:16-20 | a price is collected if and only if some book's outcome of the wanted type and line quotes it |
| PropsAnalysis.MaxOf | scripts/analizador_odds_player_props.py:21 | `max(xs) if xs else None`: None exactly for an empty list, else a member that bounds all members |
| PropsAnalysis.BestOdds | scripts/analizador_odds_player_props.py:14-21 | None if and only if nothing matches; otherwise a quoted matching price that no matching price exceeds |
| PropsAnalysis.MaxOfAppend | scripts/analizador_odds_player_props.py:21 | the maximum of a concatenation is the larger of the two maxima, None counting as no value |
| PropsAnalysis.BestOddsAppend | scripts/analizador_odds_player_props.py:17-21 | the best price over two book lists is the larger of the two bests |
| PropsAnalysis.BestOverQuote | scripts/analizador_odds_player_props.py:14-21 | the best of Over quotes 1.8, 2.1 and 1.95 is 2.1, and Under or other-line quotes are ignored |
| PropsAnalysis.OddsFor | scripts/analizador_odds_player_props.py:32-39 | the best price within the first market of that name of the first player with the prediction's id; None when either lookup fails |
| PropsAnalysis.PriceProp | scripts/analizador_odds_player_props.py:43-57 | raises exactly for a truthy non-numeric probability; otherwise the recommendation carries the prediction's fields, the implied probability (1 / price), the value `p * price - 1` (0 for a falsy probability) and that value's tier |
| PropsAnalysis.RecommendProp | scripts/analizador_odds_player_props.py:31-57 | a prediction with no truthy best price is skipped; otherwise it is priced as PriceProp prices it |
| PropsAnalysis.AnalyzePlayerProps | scripts/analizador_odds_player_props.py:23-58 | raises exactly when some prediction raises; otherwise at most one recommendation per prediction, each its own prediction's |
| PropsAnalysis.AnalyzeAppend | scripts/analizador_odds_player_props.py:25-57 | analysing two halves and concatenating gives the analysis of the whole |
| PropsAnalysis.AnalyzeSingle | scripts/analizador_odds_player_props.py:25-57 | the analysis of one prediction raises exactly when that prediction raises, and otherwise is its recommendation or empty; with AnalyzeAppend this fixes the analysis of every list |
| PropsAnalysis.AnalyzeComplete | scripts/analizador_odds_player_props.py:25-57 | every recommendation that some prediction yields is in the result of an analysis that does not raise |
| PropsAnalysis.TopPropRecommendation | scripts/analizador_odds_player_props.py:99 | None exactly for no recommendations; otherwise the first with the largest value |
| PropsAnalysis.PropsTiered | scripts/analizador_odds_player_props.py:43-57 | every recommendation of a successful analysis carries the tier of its own value |
| PropsAnalysis.TopPropIsStrongest | scripts/analizador_odds_player_props.py:99 | the top player-prop recommendation carries the strongest tier of the batch |
| Prematch.TeamNamed | scripts/extraer_odds_prematch.py:26-33 | "" when no competitor has the qualifier; otherwise the name of the last one that has it |
| Prematch.MarketKey | scripts/extraer_odds_prematch.py:36-45 | exactly the five provider market names are kept, mapped to moneyline, spread or total |
| Prematch.Reshape | scripts/extraer_odds_prematch.py:68-97 | raises exactly when the price is unparseable (checked even for skipped types), or when a recognised spread or total outcome lacks a parseable line; kept exactly when its type is recognised; names become the home team, the away team, "Over" or "Under" |
| Prematch.BookKey | scripts/extraer_odds_prematch.py:57 | a book's key has no spaces and no upper-case letters, and is no longer than its name |
| Prematch.KeyIgnoresCase | scripts/extraer_odds_prematch.py:57 | letter case does not change a book's key |
| Prematch.KeyIgnoresSpaces | scripts/extraer_odds_prematch.py:57 | a space does not change a book's key |
| Prematch.BookKeyFixed | scripts/extraer_odds_prematch.py:57 | a name with no spaces and no upper-case letters is its own key |
| Prematch.DraftKingsKey | scripts/extraer_odds_prematch.py:57 | "Draft Kings" is keyed "draftkings" |
| Prematch.VisitBook | scripts/extraer_odds_prematch.py:55-104 | a book that does not raise always yields a visit, keyed by the book's normalised name and titled by its name |
| Prematch.VisitBookFailure | scripts/extraer_odds_prematch.py:68-97 | a book raises exactly when one of its outcomes raises |
| Prematch.VisitBookMarket | scripts/extraer_odds_prematch.py:68-104 | a visit adds no market exactly when no outcome has a recognised type; otherwise the market has the canonical key and its outcomes are exactly what the outcome loop keeps, in order |
| Prematch.VisitBookOutcomes | scripts/extraer_odds_prematch.py:68-104 | every outcome of the added market comes from a recognised input outcome, and every recognised input outcome is reshaped into it |
| Prematch.VisitBookOk | scripts/extraer_odds_prematch.py:68-104 | a visit is well-formed: spread and total outcomes carry numeric lines |
| Prematch.MarketVisits | scripts/extraer_odds_prematch.py:51-55 | a market whose name is not kept visits nothing and never raises |
| Prematch.MarketVisitsFailure | scripts/extraer_odds_prematch.py:51-104 | a kept market raises exactly when one of its books raises |
| Prematch.MarketVisitsBooks | scripts/extraer_odds_prematch.py:55-104 | a kept market that does not raise visits each of its books once, in order: the j-th visit is the j-th book's |
| Prematch.MarketVisitsOk | scripts/extraer_odds_prematch.py:55-104 | every visit of a market is well-formed |
| Prematch.VisitsFailure | scripts/extraer_odds_prematch.py:51-104 | the market loop raises exactly when some market raises |
| Prematch.VisitsOk | scripts/extraer_odds_prematch.py:51-104 | every visit of the feed is well-formed |
| Prematch.VisitsSingle | scripts/extraer_odds_prematch.py:51-104 | the visits of a one-market feed are that market's visits |
| Prematch.VisitsAppend | scripts/extraer_odds_prematch.py:51-104 | the visits of two market lists concatenated are the concatenation of their visits, and the loop raises if and only if either part raises |
| Prematch.VisitsCoverFeed | scripts/extraer_odds_prematch.py:51-104 | every book of every kept market yields a visit of the feed |
| Prematch.VisitsFromFeed | scripts/extraer_odds_prematch.py:51-104 | every visit of the feed is the visit of some book of some kept market |
| Prematch.Register | scripts/extraer_odds_prematch.py:59-66 | a new key appends a bookmaker with the visit's title; a known key keeps its position and title; keys stay distinct |
| Prematch.GroupBooks | scripts/extraer_odds_prematch.py:50-106 | one bookmaker per distinct book key seen, each holding, in feed order, every market filed under its key |
| Prematch.RegisterKeepsTitles | scripts/extraer_odds_prematch.py:59-66 | registering one more visit keeps every bookmaker titled by the first visit of its key |
| Prematch.RegisterKeepsOrder | scripts/extraer_odds_prematch.py:59-66 | registering one more visit keeps bookmakers in the order their keys were first seen |
| Prematch.GroupBooksTitles | scripts/extraer_odds_prematch.py:58-66 | each bookmaker is titled by the name seen the first time its key appeared |
| Prematch.GroupBooksOrder | scripts/extraer_odds_prematch.py:50-106 | bookmakers come out in the order their keys were first seen |
| Prematch.NormalisePrematch | scripts/extraer_odds_prematch.py:20-121 | raises exactly when the market loop raises; otherwise a one-element list holding the event id, start time, home and away names and the grouped bookmakers |
| Prematch.NormaliseFailure | scripts/extraer_odds_prematch.py:20-121 | the normaliser raises exactly when one of the feed's markets raises |
| Prematch.NormalisedBookKeys | scripts/extraer_odds_prematch.py:50-106 | the output's bookmaker keys are exactly the normalised names of the books of the feed's kept markets |
| Prematch.NormalisedFeedConsolidates | scripts/extraer_odds_prematch.py:109-121 | every document the prematch normaliser produces is consolidated without error |
| SportradarOdds.ProcessMarket | scripts/extraer_procesar_odds.py:56-87 | the sub-markets other than the market's own stay empty; in its own, each field holds the value from the last outcome of that designation; spread points come only from home outcomes, total points from the last over or under outcome |
| SportradarOdds.RunIsRouted | scripts/extraer_procesar_odds.py:63-85 | the outcome loop equals the last-writer-wins reference definition |
| SportradarOdds.LaterOutcomeWins | scripts/extraer_procesar_odds.py:64-68 | of two home moneyline outcomes, the later one's price is kept |
| SportradarOdds.AwaySpreadHasNoLine | scripts/extraer_procesar_odds.py:70-76 | an away-only spread market yields the away price and no line |
| SportradarOdds.MergeAsWritten | scripts/extraer_procesar_odds.py:100-105 | as written, the merge keeps every key it started with, and after at least one market holds exactly those keys plus all three sub-market keys |
| SportradarOdds.MergeIntended | scripts/extraer_procesar_odds.py:100-105 | the corrected merge keeps every key it started with and adds only sub-market keys |
| SportradarOdds.MergeKeepsOnlyLast | scripts/extraer_procesar_odds.py:100-105 | as written, the merge leaves all three sub-markets as the last market processed |
| SportradarOdds.MoneylineWipedByTotal | scripts/extraer_procesar_odds.py:100-105 | as written, a moneyline market followed by a total market loses the moneyline prices |
| SportradarOdds.MergeIntendedCollects | scripts/extraer_procesar_odds.py:100-105 | the corrected merge holds a sub-market exactly when some market carries it, and it comes from the last such market |
| SportradarOdds.MoneylineKeptWhenIntended | scripts/extraer_procesar_odds.py:100-105 | under the corrected merge, a moneyline market followed by a total market keeps the moneyline home price |

## Left out

- HTTP requests, reading and writing files, printing, and `datetime.now()` timestamps are outside the model. Every function takes its parsed input as a parameter. API keys and URLs do not appear.
- The reports' metadata echoes (`generated_at`, `data_source`, the game id and team names copied into the report) and the constant `sport_key`/`sport_title` fields are not modelled.
- Floating-point arithmetic is modelled as exact real arithmetic. Rounding in `mean` and in `1 / odds` is not modelled.
- `lower()` is modelled for ASCII letters only. Other Unicode case mappings are not modelled.
- Keys the code indexes without a default are present by construction of the datatypes. These are: a market's `key`; an outcome's `name` and `price`; a Sportradar outcome's `designation` and market's `name`; a player's `id`, `name` and `competitor_id`; a player-props competitor's `name`; and a player-prop prediction's keys. A JSON `null` where the code calls `.lower()` (a book or market name) is also not modelled. Python would raise in each of these cases.
- Consolidator.RouteOutcomes: a missing `home_team` key raises KeyError only when an `h2h` or `spreads` outcome is reached. This is modelled. A present but `null` home team is not modelled.
- Prematch.TeamNamed: a prematch competitor's `name` is taken as present. The source reads it with `team.get("name")` (scripts/extraer_odds_prematch.py:31,33), so a competitor without a name makes the home or away team `None`, which then becomes an outcome name and the document's team (lines 77, 84, 115). That `None` is not modelled.
- `.get(k, default)` on a key that is present but JSON `null` is modelled as giving the default. Python gives `None` instead. This affects a team prediction's `team` (the recommendation's `selection`, scripts/analizador_odds.py:111) and its `game_id` (line 109), and the player-props `event_id` (scripts/extraer_odds_player_props.py:42).
- PropsAnalysis.OddsFor: the prediction's line is taken as a number. `float(linea)` on a string line is not modelled.
- The outer loop of `process_daily_odds` (schedule, per-game request, one result per bookmaker) is not modelled. Only its per-bookmaker merge is.
- Python `bool` values used as numbers are modelled as the numbers they stand for.
- SportradarOdds.MergeKeepsOnlyLast: requires that the accumulator start with only the three sub-market keys. The loop in the source always starts from an empty map.
- The `obtener_archivo_mas_reciente` file lookup and the `analizar_player_props_archivos`/`imprimir_resumen_player_props` wrappers are I/O and are not modelled.

## Findings

| source | as written | input that shows it | evidently intended | confidence | as-written member | corrected member |
|---|---|---|---|---|---|---|
| scripts/extraer_procesar_odds.py:100-105 | Each market's processed dict holds all three sub-markets, mostly empty. Copying every key into the bookmaker's odds therefore overwrites all of them, and only the last market survives. | A bookmaker with a `moneyline` market (home 1.9) followed by a `total` market: the merged moneyline has no home or away price. | Each sub-market is taken from the market that carries it, so the moneyline, spread and total of one bookmaker coexist. | medium, not executed | SportradarOdds.MergeKeepsOnlyLast, SportradarOdds.MoneylineWipedByTotal | SportradarOdds.MergeIntended, SportradarOdds.MergeIntendedCollects |
