# Content-source router, modelled in Dafny

The router answers a query in three steps.

1. It reads signals from the query text: the intent, and four composed
   dimensions (relevance, credibility, freshness and depth). From these it
   derives a quality threshold, a minimum number of sources and a freshness
   window.
2. It scores every source of a priced catalog for that query.
3. It picks sources with three gates:
   - gate 1 drops sources that are too stale or too weak;
   - gate 2 ranks the rest by utility per dollar;
   - gate 3 walks that ranking greedily under a $12 budget. It refuses
     redundant pairs, and refuses repeated tiers once the minimum is met. It
     stops after `max(minSources + 1, 2)` picks.

A naive baseline (the three most authoritative sources) gives the savings
figures.

The model has eight modules, one file each:

- `Basics`: `Option`, min and max, sums, averages, `s[:n]`, and
  subsequences.
- `Text`: `lower()`, `split()`, `" ".join` and `replace("_", " ")`.
- `Similarity`: `cos_sim` over word sets.
- `Signals`: `extract_signals`. Every regular-expression search becomes a
  boolean (or, for entities, a list of matches) in `QueryHits`.
- `Scorer`: `score_source`.
- `Ranking`: Python's stable sort in reverse order, as an insertion sort.
- `Optimizer`: `optimize`.
- `Catalog`: the shipped `SOURCES`, `DOMAIN_BOOST` and `REDUNDANT`.

The catalog, the boost table and the redundant pairs are parameters
everywhere. `Catalog` is one concrete instance of them.

Scores, prices and authorities are exact `real`s. `math.sqrt` is a
parameter `sqrt` of which only positivity is assumed (`PositiveRoot`); the
lemmas that need the true root assume `ExactRoot`.

The two loops of `optimize` are methods proved against specification
functions:

- `Gate` against `Passed`/`Failed`;
- `SelectDiverse` against the fold `Greedy` of the one-step function
  `Consider`.

Two small imperative pieces of `extract_signals` are methods too:

- the template loop with `break` (`FindTemplate` against `MatchedTemplate`);
- the time-marker appends (`CollectTimeMarkers` against `TimeMarkers`).

The rest of the code is pure and is modelled as functions.

## Model

| member | source | states |
|---|---|---|
| Text.Lower | app.py:59 | same length; no upper-case letter is left; each character is lower-cased in place |
| Text.Words | app.py:60 | every word is non-empty and free of separators, and contains only characters of the input |
| Text.WordCount | app.py:60 | the number of words is the number of positions where a non-separator starts the string or follows a separator |
| Text.Join | app.py:282 | the empty list joins to the empty string, one word to itself; otherwise the result starts with the first word and the separator and ends with the last word |
| Text.UnderscoresToSpaces | app.py:283 | same length; every underscore becomes a space and every other character stays; no underscore is left |
| Text.SplitJoinRoundTrip | app.py:282 | splitting a single-space join of separator-free, non-empty words gives back exactly those words |
| Similarity.WordSet | app.py:50-51 | a token is kept exactly when it is a word of the lower-cased text longer than two characters; every kept token has no separator and no upper-case letter |
| Similarity.CosSim | app.py:49-55 | 0 when either word set is empty; never negative; positive exactly when the two sets share a token |
| Similarity.CosSimAtMostOne | app.py:49-55 | with the true square root the overlap is at most 1 |
| Similarity.CosSimSelf | app.py:49-55 | with the true square root a text with a kept token has overlap 1 with itself |
| Similarity.CosSimSymmetric | app.py:49-55 | the overlap does not depend on argument order |
| Signals.IntentScores | app.py:63-71 | one score per profile, in declaration order, each the overlap of the query with that profile and never negative |
| Signals.FirstMax | app.py:72-73 | the head of the stable descending sort: a maximum, and strictly above every earlier score |
| Signals.ClassifyIntent | app.py:71-74 | the chosen intent has the highest score, and every earlier-declared intent scores strictly less |
| Signals.TiedScoresGiveFirstIntent | app.py:72-73 | when all six scores tie, the first-declared intent (financial analysis) wins |
| Signals.NoOverlapGivesFirstIntent | app.py:71-73 | a query that shares no token with any profile is classified as financial analysis |
| Signals.NoOverlapScoresTie | app.py:71-73 | when no profile shares a token with the query every one of the six scores is 0 and the stable sort keeps financial analysis first |
| Signals.SemanticRaw | app.py:75 | the semantic score lies in [0.22, 0.98] |
| Signals.Entities | app.py:80-82 | keeps exactly the matches longer than one character that are not skip words, each as often as it was found, as a subsequence of the matches (so in the order found); never more than found |
| Signals.Specificity | app.py:86 | 0.88 exactly when a specificity marker matched; otherwise 0.65 exactly for more than nine words, and always within [0.38, 0.88] |
| Signals.EntityDensity | app.py:82 | in [0, 1], and 1 from seven entities on |
| Signals.FirstHit | app.py:96-100 | the first matching position, or none exactly when nothing matched |
| Signals.FindTemplate | app.py:96-100 | the loop with `break` returns the template of the first match, and none exactly when no template matched |
| Signals.TemplateBoostIsFirstMatch | app.py:96-101 | the boost is 0.5 plus the first matching template's boost, whatever later templates match |
| Signals.TemplateBoostRange | app.py:88-101 | the boost is 0.5 without a match and within [0.6, 0.72] with one |
| Signals.RelevanceOf | app.py:103 | the composed relevance lies in [0, 0.99], built from the semantic score and the first-match template boost |
| Signals.CascadesPickHighestMatch | app.py:106-127 | the stakes score is the highest of 0.95/0.68 among the patterns that matched, at least 0.38; the sensitivity score likewise with 0.92/0.72, at least 0.30 |
| Signals.Corroboration | app.py:133 | corroboration lies in [0, 1] |
| Signals.CredibilityOf | app.py:106-135 | the composed credibility lies in [0, 0.99], with corroboration from the stakes cascade and the controversy flag |
| Signals.MinSourcesRule | app.py:108-133 | two sources are required exactly when the stakes are high and the topic controversial, or for breaking news unless both low-stakes and uncontroversial |
| Signals.VelocityRealTimeIffNow | app.py:142-153 | velocity is 1.0, 0.74 or 0.12 in now/recent/archive priority order, the neutral 0.38 when none matched, and reaches 0.9 exactly on a real-time hit |
| Signals.CollectTimeMarkers | app.py:155-163 | the four conditional appends build exactly the marker list of `TimeMarkers` |
| Signals.TimeMarkersExact | app.py:155-163 | each marker is in the list exactly when its pattern matched |
| Signals.TimeMarkersDistinct | app.py:155-163 | the markers come in check order, so there are at most four and none repeats |
| Signals.Temporal | app.py:164 | the temporal score is at least the velocity and at most 1 |
| Signals.DecayRate | app.py:170-178 | the decay rate lies in [0.10, 1.0] |
| Signals.MaxFreshnessHours | app.py:181-187 | the window is one of 4, 12, 48 or 9999; it is 4 exactly when freshness is required at velocity >= 0.9, and 12 exactly when required below it |
| Signals.FreshnessOf | app.py:138-187 | the composed freshness lies in [0, 0.99]; freshness is required exactly above 0.52 |
| Signals.FreshnessWindowByVelocity | app.py:138-187 | real-time queries always get the 4-hour window, recent ones 12 hours, archival ones no bound; the 4-hour window occurs exactly on a real-time hit |
| Signals.Complexity | app.py:192 | complexity lies in (0, 0.99] |
| Signals.ComplexityFromLength | app.py:192-201 | without analytical terms the complexity passes 0.62, and the depth requirement becomes 0.72 instead of 0.32, exactly from 19 words on |
| Signals.QuestionTypePicksLowestMatch | app.py:203-211 | the question-type score is the lowest of 0.30/0.48 among the patterns that matched, 0.65 when none did |
| Signals.DepthOf | app.py:190-217 | the composed depth lies in [0, 0.99] |
| Signals.QualityThreshold | app.py:220 | at most 0.96, and at least 0.60 for non-negative credibility and depth |
| Signals.MinSources | app.py:221 | one or two sources |
| Signals.ExtractSignals | app.py:58-274 | every composed score and threshold is in range, the window is one of the four values, and intent, freshness, credibility, depth, quality threshold, template and minimum follow their definitions |
| Signals.LowStakesNeedOneSource | app.py:108-133 | without stakes or controversy hits a financial-analysis query has corroboration 0.274 and needs one source |
| Signals.EmptyQueryDefaults | app.py:58-221 | the empty query without stakes or controversy hits is financial analysis, needs one source and counts no words |
| Scorer.Boost | app.py:303 | a missing intent or name gives 0; a well-formed table gives a value in [0, 0.5] |
| Scorer.Semantic | app.py:282-283 | the topic score lies in [0.28, 0.96] |
| Scorer.FreshnessFit | app.py:286-301 | the freshness fit lies in [0, 1] |
| Scorer.QualityFit | app.py:304-308 | the quality fit lies in [0.52, 1] |
| Scorer.ScoreSource | app.py:277-318 | utility is at most 0.99, and at least 0 for a well-formed source and table; semantic, freshness, boost and quality components each follow their rule |
| Scorer.FreeSourcePenalty | app.py:299-301 | under required freshness a free source gets exactly a quarter of a paid source's fit (so at most 0.25); otherwise price plays no part |
| Scorer.FreshnessFitAntitone | app.py:286-297 | a staler source never has a better freshness fit |
| Scorer.QualityFitTierOrder | app.py:304-308 | above 0.70 credibility the tiers rank premium > mid > wire > unknown > free; at or below it every tier fits 1.0 |
| Scorer.Utility | app.py:310 | at most 0.99; the weights sum to one, so equal terms blend to their common value (capped at 0.99) and terms in [0, 1] give a non-negative utility |
| Scorer.UtilityMonotoneInAuthority | app.py:310 | more authority never lowers utility |
| Ranking.InsertSorted | app.py:341 | inserting into a descending sequence keeps it descending |
| Ranking.SortDesc | app.py:341 | the result is a permutation of the input, sorted in descending key order |
| Ranking.InsertStable | app.py:341 | inserting one element adds it to its key group and leaves the order of every other group unchanged |
| Ranking.SortStable | app.py:341 | elements with equal keys keep their original relative order |
| Ranking.SortInjective | app.py:341 | sorting keeps distinct names distinct |
| Ranking.LargerKeyFirst | app.py:341 | in a sorted sequence a strictly larger key comes earlier |
| Ranking.SubseqSorted | app.py:344-369 | a subsequence of a sorted sequence is sorted |
| Optimizer.ScoreAll | app.py:325 | one scored entry per catalog source, in catalog order, each carrying its source and scored by `ScoreSource` |
| Optimizer.GateReasons | app.py:330-334 | no reason exactly when the source is eligible; "too stale" exactly when freshH > window and then it comes first; "low utility" exactly when utility < threshold - 0.12, and first when the source is fresh enough |
| Optimizer.Passed | app.py:328-338 | the eligible list keeps catalog order and holds exactly the eligible sources |
| Optimizer.Failed | app.py:328-338 | the ineligible list holds exactly the ineligible sources, each with the first reason found, in catalog order |
| Optimizer.Gate | app.py:328-338 | the loop builds exactly the eligible and ineligible lists |
| Optimizer.GateSplitsCatalog | app.py:328-338 | eligible and ineligible partition the scored catalog as multisets |
| Optimizer.Ranked | app.py:341 | the ranking is a permutation of the eligible sources in non-increasing utility per dollar |
| Optimizer.Cap | app.py:368 | the stop count is at least 2 and above `minSources` |
| Optimizer.Consider | app.py:349-369 | a stopped pass ignores the candidate; otherwise the candidate is either appended to the selection, its price added within the budget of 12, or appended to the rejections with nothing else changed; the rejection is "over budget" exactly when the price would exceed the budget |
| Optimizer.Greedy | app.py:344-369 | the pass over the ranked list as a fold of `Consider`: every held source and every rejected source is one of the candidates (its invariants, accounting and rejection reasons are stated by GreedyConsistent, GreedyAccounts and GreedyJustified) |
| Optimizer.ConsiderAccounts | app.py:349-369 | an unstopped step appends its candidate to exactly one of the selection and the rejections |
| Optimizer.GreedyAccounts | app.py:344-369 | the rejections are a subsequence of the ranked list, so `rejected[:4]` are the first four turned away in ranked order; held and rejected sources never exceed the ranked list as a multiset, and equal it when the pass never stopped |
| Optimizer.ConsiderKeeps | app.py:349-369 | one greedy step keeps the budget, redundancy, tier, cap and bookkeeping invariants |
| Optimizer.GreedyConsistent | app.py:344-369 | after the pass: spent is the price sum and at most 12; no redundant pair, either order; no repeated non-free tier once the minimum is met; the selection is a subsequence of the ranked list; selected plus rejected count every candidate when the pass never stopped |
| Optimizer.GreedyStopped | app.py:368-369 | after the `break` later candidates change nothing |
| Optimizer.GreedyJustified | app.py:349-363 | with no negative prices every rejection's reason still holds against the final selection |
| Optimizer.SelectDiverse | app.py:344-369 | the loop with `continue`/`break` computes the greedy pass; spent <= 12, no redundant pair, tiers spread, the cap, and ranked order |
| Optimizer.SelectionFromGates | app.py:328-369 | every selected source was scored and eligible, and the selection is in value order |
| Optimizer.FreeEligibleRanksFirst | app.py:330-341 | an eligible free source is ranked ahead of every eligible source costing 3 cents or more |
| Optimizer.NaiveBaseline | app.py:371 | the baseline has min(3, catalog size) sources |
| Optimizer.NaiveIsTopByAuthority | app.py:371 | the baseline is drawn from the catalog and out-ranks by authority every source left out |
| Optimizer.SmartQuality | app.py:373 | 0 for an empty selection, otherwise the mean utility: times the selection size it gives the utility sum |
| Optimizer.SavingsPct | app.py:386 | 0 for a baseline that costs nothing; otherwise times the baseline cost it gives 100 times the saving, so 100 when nothing is spent and 0 when the router spends what the baseline does |
| Optimizer.SavingsPctBounds | app.py:386-387 | savings are at most 100% when nothing costs below zero, and not negative exactly when the router spends no more than the baseline |
| Optimizer.QualityFiguresBounded | app.py:373-374 | the selection's mean utility lies in [0, 0.99]; the baseline's mean authority in [0, 1] |
| Optimizer.SelectedNamesDistinct | app.py:344-369 | with distinct catalog names no source is selected twice |
| Optimizer.ScoringKeepsNames | app.py:325 | scoring keeps the catalog's names distinct |
| Optimizer.Optimize | app.py:321-388 | the outcome spends at most 12, holds no redundant pair, spreads tiers, has at most `minSources + 1 <= 3` sources, all eligible and in value order; at most 6 ineligible and 4 rejected entries; savings follow the baseline |
| Catalog.ShippedSourcesWellFormed | app.py:11-32 | the shipped catalog is non-empty and every source has a non-negative price and an authority in [0, 1] |
| Catalog.ShippedNamesDistinct | app.py:11-32 | no two shipped sources share a name |
| Catalog.ShippedBoostsWellFormed | app.py:34-41 | every shipped boost lies in [0, 0.5] |
| Catalog.ShippedRedundancy | app.py:43 | Reuters is redundant with AP and with Bloomberg, in either order; AP and Bloomberg are not |

## Left out

- The Flask routes, the static page and JSON shaping (app.py:1-5, 395-409). Outcomes are datatypes.
- Regular-expression matching. Each `re.search` is a boolean field of `QueryHits`, and `re.findall` for entities is the list of matches. The model therefore does not capture which texts match which pattern, or that two patterns hit on the same word.
- `math.sqrt` and IEEE-754 rounding. Sums, products and quotients are exact reals, and the root is an assumed positive function. Ties that floating-point rounding would break differently are not modelled.
- Text.Lower: `lower()` is modelled for ASCII letters only, and keeps the length. Python also lower-cases other alphabets, and can lengthen a string (`'İ'` becomes two code points).
- Signals.DecayRate: the 0.40 default of `half_life_map.get` is not modelled. The intent is always one of the six keys, so that default is never used.
- Signals.ExtractSignals: the contract does not restate the display-only fields of the bundle (entity density, specificity, relevance components, question-type score); their functions are modelled as written.
- Optimizer.Optimize: requires a non-empty catalog. With an empty catalog the source divides by `len(naive)` and raises `ZeroDivisionError`. The shipped catalog has ten entries.
- Optimizer.NaiveBaseline: `sorted(key=-auth)` is modelled by the same stable descending sort as `eligible.sort`. Both keep catalog order among equal authorities.
- `eligible.sort` and the list appends work in place in the source. The model works on sequences: nothing else refers to these lists, so aliasing cannot arise.
- Optimizer.SelectedNamesDistinct: selected names are distinct only when the catalog's names are. The code enforces only the redundant pairs, so a catalog listing one source twice could have both copies selected. The shipped catalog has distinct names.
- The `priceSource`/`priceDetail` text of each catalog entry. It is display data.
