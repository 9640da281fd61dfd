# Bottom-lane draft helper — verified model

This project models the logic behind a League of Legends bottom-lane draft helper.
It covers three parts:

- **The matchup repository** (`client/src/lib/matchup-data.ts`):
  - the name normaliser, which builds a key table from champion ids, names and curated aliases, and the total lookup `normalizeName`;
  - the two feed transforms, which turn crawled records into `MATCHUP_DATA` and `SUPPORT_MATCHUP_DATA`;
  - the sample-size weighting `weightedDelta` and the margin of error `confidenceMargin`.
- **The two scoring engines**:
  - `scoredChampions` (`Home.tsx`) ranks bottom laners for a chosen ally support, enemy support, enemy laner and threat;
  - `scoredSupports` (`SupportPicker.tsx`) ranks supports for a chosen ally laner, enemy support, enemy laner and threat;
  - each engine pools matchup records by a games-weighted mean and adds weighted terms to a raw score;
  - it tracks `hasData` and the missing-data flags, min-max normalises into [20, 100], drops the ally pick and sorts by score;
  - the bottom picker's filter state is modelled too: the handlers that keep the ally and the enemy support apart, and the URL guard.
- **The in-memory draft store** (`server/storage.ts`, `MemStorage`): users and drafts in insertion-ordered maps.

Modules:

| file | module | contents |
|---|---|---|
| wrappers.dfy | Wrappers | `Option` |
| champions.dfy | Champions | champion records, threats, `find` by id, truthiness |
| weighting.dfy | Weighting | `weightedDelta`, `confidenceMargin` over abstract curves |
| naming.dfy | Naming | key spelling, `buildNormalizationMap` (loops), `normalizeName` |
| repository.dfy | Repository | feed records, `transformData` / `transformSupportData` (loops) and the tables they build |
| combining.dfy | Combining | `combineMatchupValues`, the support picker's synergy pooling, lookups |
| sorting.dfy | Sorting | the stable descending sort `Array.prototype.sort` performs |
| ranking.dfy | Ranking | min/max over candidates with data, normalisation, `Math.round`, filter and sort |
| bottompicker.dfy | BottomPicker | `scoredChampions` |
| supportpicker.dfy | SupportPicker | `scoredSupports` |
| filters.dfy | Filters | the bottom picker's selection state, handlers and URL guard |
| storage.dfy | Storage | `MemStorage` |

Each place where the source changes state step by step is modelled imperatively.
The loops that build the alias table and the matchup maps, and the per-candidate score accumulation, are methods.
Each is proved equal to a specification function, and the properties are lemmas about that function.
The filter state and the store are classes whose methods state their whole new state.

## Model

| member | source | states |
|---|---|---|
| Weighting.ClampGames | client/src/lib/matchup-data.ts:26 | missing or non-positive games count as 0, positive counts are kept |
| Weighting.Confidence | client/src/lib/matchup-data.ts:26-27 | the confidence factor lies in [0, 1) and is 0 when games <= 0 |
| Weighting.WeightedDelta | client/src/lib/matchup-data.ts:24-29 | 0 for an absent value or games <= 0; same sign as the delta, never larger in magnitude, and strictly smaller for a non-zero delta |
| Weighting.Discount | client/src/lib/matchup-data.ts:28 | multiplying by a factor in [0, 1) shrinks towards 0 and gives 0 at factor 0 |
| Weighting.WeightedDeltaMonotoneInGames | client/src/lib/matchup-data.ts:26-28 | more games never weigh a positive delta less or a negative delta more |
| Weighting.WeightedDeltaMonotoneInDelta | client/src/lib/matchup-data.ts:28 | at equal games a larger delta never weighs less |
| Weighting.WeightedDeltaNegate | client/src/lib/matchup-data.ts:28 | negating the delta negates the weighted delta, as the mirrored records use it |
| Weighting.WinRate | client/src/lib/matchup-data.ts:36 | the win rate is 0.5 + delta/100 clamped to [0, 1] |
| Weighting.ConfidenceMargin | client/src/lib/matchup-data.ts:32-38 | null exactly when the value is absent or its clamped games are 0; otherwise non-negative |
| Naming.Lower | client/src/lib/matchup-data.ts:92 | lower-casing leaves no upper-case letter, keeps non-letters and never turns a kept character into a stripped one |
| Naming.KeyAppend | client/src/lib/matchup-data.ts:92 | the key of a concatenation is the concatenation of the keys |
| Naming.KeyOfClean | client/src/lib/matchup-data.ts:92 | a lower-case string without `'`, whitespace or `-` is its own key |
| Naming.KeyIsClean | client/src/lib/matchup-data.ts:92 | a key contains no upper-case letter, `'`, whitespace or `-` |
| Naming.KeyIdempotent | client/src/lib/matchup-data.ts:92 | taking the key twice is taking it once |
| Naming.KeyIgnoresPunctuation | client/src/lib/matchup-data.ts:92 | inserting `'`, whitespace or `-` anywhere leaves the key unchanged |
| Naming.KeyIgnoresCase | client/src/lib/matchup-data.ts:92 | changing the case of any character leaves the key unchanged |
| Naming.Normalize | client/src/lib/matchup-data.ts:90-94 | the result is empty exactly for the empty input; it is the input or the table entry of the input's key |
| Naming.NormalizeByKey | client/src/lib/matchup-data.ts:92-93 | inputs with the same key and a non-empty table entry normalise to that entry |
| Naming.NormalizeMissIdempotent | client/src/lib/matchup-data.ts:93 | on a table miss the input comes back, and normalising again changes nothing |
| Naming.NormalizeIdempotent | client/src/lib/matchup-data.ts:90-94 | over a self-consistent table normalising twice is normalising once |
| Naming.AddChampions | client/src/lib/matchup-data.ts:46-68 | one champion loop writes each champion's id key and name key to its name, as `WithChampions` states |
| Naming.BuildNormalizationMap | client/src/lib/matchup-data.ts:42-86 | the three champion loops, then the alias loop, build exactly `NormalizationTable` |
| Naming.WithChampionsEntry | client/src/lib/matchup-data.ts:46-68 | every entry the champion loops write is an id key or name key of some champion and holds that champion's name |
| Naming.WithChampionsKeys | client/src/lib/matchup-data.ts:46-68 | every champion's id key and name key are in the table |
| Naming.WithChampionsKeepsKeys | client/src/lib/matchup-data.ts:46-68 | the loops never remove a key |
| Naming.WithChampionsConcat | client/src/lib/matchup-data.ts:46-68 | running the loop over two lists is running it over their concatenation |
| Naming.WithAliasesAt | client/src/lib/matchup-data.ts:81-83 | an alias not redefined later ends up holding its own name |
| Naming.WithAliasesOther | client/src/lib/matchup-data.ts:81-83 | keys that are not aliases keep their entry |
| Naming.AliasesOverride | client/src/lib/matchup-data.ts:70-83 | each curated alias overrides any colliding id or name key |
| Naming.KaisaResolves | client/src/lib/matchup-data.ts:78 | "KaiSa", "kai-sa" and "Kai Sa" all normalise to "Kai'Sa" |
| Naming.AliasesSelfConsistent | client/src/lib/matchup-data.ts:71-79 | every alias's canonical name keys to an alias holding that same name |
| Naming.AliasKeysDistinct | client/src/lib/matchup-data.ts:71-79 | no two curated aliases share a key |
| Naming.TableSelfConsistent | client/src/lib/matchup-data.ts:42-94 | over unambiguous champion lists the built table is self-consistent, so normalisation is idempotent on it |
| Repository.RawName | client/src/lib/matchup-data.ts:114 | the raw name is `opponent \|\| ally`, `ally \|\| opponent` or `opponent` alone, as each loop picks |
| Repository.ValueOf | client/src/lib/matchup-data.ts:116 | the stored value keeps the delta, and games defaults to 0 |
| Repository.Filings | client/src/lib/matchup-data.ts:113-121 | each record's filing is its admission test and key, in feed order |
| Repository.BotLanerNames | client/src/lib/matchup-data.ts:96 | `BOT_LANER_NAMES` holds exactly the normalised names of the bottom laners |
| Repository.AddRecords | client/src/lib/matchup-data.ts:126-131 | one record loop adds exactly the admitted records to the map, later ones overwriting |
| Repository.AddSupportCounters | client/src/lib/matchup-data.ts:112-122 | the `counters.support` loop fills `counters` and seeds `enemyBottom` with first-seen bottom laners only |
| Repository.BuildBottomMatchup | client/src/lib/matchup-data.ts:105-142 | one bottom laner's three loops build exactly its `MatchupData` |
| Repository.BuildSupportMatchup | client/src/lib/matchup-data.ts:159-191 | one support's three loops build exactly its `SupportMatchupData` |
| Repository.TransformData | client/src/lib/matchup-data.ts:99-148 | the outer loop builds exactly `MATCHUP_DATA`, keyed by the normalised raw key |
| Repository.TransformSupportData | client/src/lib/matchup-data.ts:153-197 | the outer loop builds exactly `SUPPORT_MATCHUP_DATA` |
| Repository.RecordsKeys | client/src/lib/matchup-data.ts:113-141 | a name is stored exactly when some record has that name, non-empty, with a delta |
| Repository.RecordsLastWins | client/src/lib/matchup-data.ts:116 | a stored value is that of the last admitted record with its name |
| Repository.NoEmptyName | client/src/lib/matchup-data.ts:115 | the empty name is never stored |
| Repository.InferredKeys | client/src/lib/matchup-data.ts:117-119 | an inferred entry exists exactly for admitted `counters.support` names that are bottom laners |
| Repository.InferredFirstWins | client/src/lib/matchup-data.ts:117-119 | an inferred entry keeps the first record with its name |
| Repository.EnemyBottomProvenance | client/src/lib/matchup-data.ts:117-131 | `enemyBottom` holds the inferred and the explicit names; an explicit name holds exactly the value `Records` stores for it (the last admitted `counters.bottom` record, by `RecordsLastWins`), and an inferred one stands only where there is no explicit one |
| Repository.StoredNamesAreCanonical | client/src/lib/matchup-data.ts:114-116 | over a self-consistent table every stored name normalises to itself |
| Repository.RawByNameKeys | client/src/lib/matchup-data.ts:102-103 | the outer keys are the normalised raw keys, and a later raw key overrides an earlier one |
| Repository.BottomTableKeys | client/src/lib/matchup-data.ts:102-145 | `MATCHUP_DATA` has an entry exactly for each normalised key, built from the last raw record with that key |
| Repository.SupportTableKeys | client/src/lib/matchup-data.ts:156-194 | the same for `SUPPORT_MATCHUP_DATA` |
| Repository.SupportKeysOnOpponent | client/src/lib/matchup-data.ts:168-180 | `vsSupport` and `vsBottom` are keyed on the opponent name only |
| Champions.FindById | client/src/pages/Home.tsx:113-115 | `find` returns the first champion with the id, and nothing when none has it |
| Champions.ResolveName | client/src/pages/Home.tsx:113-115 | a selection resolves to a non-empty name exactly when it is truthy and a listed champion with that id has one |
| Combining.Combine | client/src/pages/Home.tsx:101-110 | nothing exactly for no records; games are the total when positive, else 0 |
| Combining.CombineMean | client/src/pages/Home.tsx:103-109 | the delta is the games-weighted mean when the total is positive, otherwise the plain mean |
| Combining.CombineKeepTotal | client/src/pages/SupportPicker.tsx:76-82 | the support picker's pooling: nothing exactly for no records, and games equal to the total even when it is not positive |
| Combining.KeepTotalAgrees | client/src/pages/SupportPicker.tsx:76-88 | both poolings agree on presence, delta, weighted delta and margin |
| Combining.TotalGamesNonNegative | client/src/pages/Home.tsx:103 | total games of non-negative counts are non-negative |
| Combining.WeightedSumBounds | client/src/pages/Home.tsx:105 | the weighted sum lies between lo and hi times the total games |
| Combining.DeltaSumBounds | client/src/pages/Home.tsx:108 | the delta sum lies between lo and hi times the count |
| Combining.CombineWithinRange | client/src/pages/Home.tsx:101-110 | a pooled delta lies within the range of the pooled deltas, for both poolings |
| Combining.CombineAgreeing | client/src/pages/Home.tsx:101-110 | pooling records that all have delta d gives d |
| Combining.CombineSingle | client/src/pages/Home.tsx:101-110 | pooling one record gives it back, with games clamped at 0 in the bottom picker's pooling |
| Combining.CombineSingleWeight | client/src/pages/Home.tsx:101-110 | pooling one record does not change its weighted delta |
| Combining.CombinePair | client/src/pages/Home.tsx:101-110 | the closed form for two records, in both branches |
| Combining.CombineSwap | client/src/pages/Home.tsx:101-110 | pooling two records does not depend on their order |
| Combining.Lookup | client/src/pages/Home.tsx:139 | an optional lookup is present exactly when the key is in the map, and returns its value |
| Combining.Present | client/src/pages/Home.tsx:138-142 | the candidate list holds exactly the present records, at most two |
| Combining.Mirror | client/src/pages/Home.tsx:163-165 | a mirrored record has the delta negated and the same games |
| Combining.MirrorInvolutive | client/src/pages/Home.tsx:164 | mirroring twice gives the record back |
| Combining.Describe | client/src/pages/Home.tsx:146-150 | a breakdown entry keeps delta and games, and its margin is null exactly when games <= 0 |
| Sorting.SortDescPermutes | client/src/pages/Home.tsx:253 | sorting returns a permutation of its input |
| Sorting.SortDescSorted | client/src/pages/Home.tsx:253 | sorting orders by non-increasing key |
| Sorting.SortDescStable | client/src/pages/Home.tsx:253 | elements with equal keys keep their relative order |
| Sorting.SortDescMembers | client/src/pages/Home.tsx:253 | the sorted output has the same elements and length as the input |
| Ranking.DataMin | client/src/pages/Home.tsx:229-231 | the minimum over candidates with data: absent exactly when none has data, a lower bound, and attained |
| Ranking.DataMax | client/src/pages/Home.tsx:229-232 | the same for the maximum |
| Ranking.Normalized | client/src/pages/Home.tsx:235-248 | exactly 50 when blind, without data or when max = min; otherwise in [20, 100], 20 at the minimum and 100 at the maximum |
| Ranking.NormalizedMonotone | client/src/pages/Home.tsx:247 | normalisation keeps the order of raw scores |
| Ranking.Round | client/src/pages/Home.tsx:250 | `Math.round` gives the integer n with n <= x + 1/2 < n + 1 |
| Ranking.RoundMonotone | client/src/pages/Home.tsx:250 | rounding keeps order |
| Ranking.RoundBounds | client/src/pages/Home.tsx:250 | a value in [20, 100] rounds into [20, 100] |
| Ranking.Exclude | client/src/pages/Home.tsx:252 | the filter keeps exactly the candidates whose id is not the excluded one |
| Ranking.ScaleBounds | client/src/pages/Home.tsx:229-250 | every rounded score lies in [20, 100] |
| Ranking.ScaleNeutral | client/src/pages/Home.tsx:240-245 | the score is exactly 50 when blind, without data, or when max = min |
| Ranking.ScaleMonotone | client/src/pages/Home.tsx:229-250 | among candidates with data a higher raw score never gets a lower score |
| Ranking.ScaleExtremes | client/src/pages/Home.tsx:229-250 | with two different raw scores among candidates with data, some candidate scores 20 and some 100 |
| Ranking.ScaleKeepsCandidates | client/src/pages/Home.tsx:237-250 | normalising keeps each candidate and its breakdown |
| Ranking.ExcludeMembers | client/src/pages/Home.tsx:252 | the filtered list holds exactly the non-excluded candidates |
| Ranking.RankSorted | client/src/pages/Home.tsx:252-253 | the ranked list is sorted by non-increasing score |
| Ranking.RankStablePermutation | client/src/pages/Home.tsx:252-253 | the ranked list is a stable permutation of the filtered list |
| Ranking.RankMembers | client/src/pages/Home.tsx:252-253 | the ranked list holds exactly the normalised candidates that are not excluded |
| Ranking.RankBounds | client/src/pages/Home.tsx:250-253 | every ranked score lies in [20, 100] |
| Ranking.RankBlind | client/src/pages/Home.tsx:240-241 | with no filter set every ranked score is 50 |
| BottomPicker.ScoreCandidate | client/src/pages/Home.tsx:118-226 | the per-candidate body, run block by block, computes exactly the raw score, flags and breakdown `Score` defines |
| BottomPicker.AddThreat | client/src/pages/Home.tsx:203-207 | the threat block adds 2 and sets data exactly when the candidate counters the threat |
| BottomPicker.AddSynergy | client/src/pages/Home.tsx:137-155 | the synergy block adds twice the weighted pooled synergy, or flags it missing |
| BottomPicker.AddEnemySupport | client/src/pages/Home.tsx:158-176 | the enemy-support block adds half the weighted pooled value |
| BottomPicker.AddEnemyBottom | client/src/pages/Home.tsx:179-200 | the enemy-bottom block adds a fifth of the weighted pooled value, or flags it missing |
| BottomPicker.SynergyTerm | client/src/pages/Home.tsx:137-155 | selecting an ally support adds exactly 2·weightedDelta of the pooled synergy; nothing is pooled when the ally does not resolve |
| BottomPicker.AllySupportMissing | client/src/pages/Home.tsx:137-154 | `allySupportMissing` is set exactly when the ally resolves and neither table holds the pair |
| BottomPicker.EnemySupportTerm | client/src/pages/Home.tsx:158-176 | selecting an enemy support adds exactly 0.5·weightedDelta of the pooled value, which needs the candidate's own entry |
| BottomPicker.EnemySupportMirror | client/src/pages/Home.tsx:162-174 | with only the enemy support's record, the term weighs that record negated |
| BottomPicker.EnemyBottomTerm | client/src/pages/Home.tsx:179-200 | selecting an enemy laner adds exactly 0.2·weightedDelta of the pooled value; `enemyBottomMissing` is set exactly when the candidate has an entry and neither side has a record |
| BottomPicker.ThreatBonus | client/src/pages/Home.tsx:203-207 | selecting a threat adds exactly 2 when the candidate counters it, and nothing otherwise |
| BottomPicker.HasData | client/src/pages/Home.tsx:131-134 | a candidate has data exactly when it has a `MATCHUP_DATA` entry or counters the threat |
| BottomPicker.BlindScoresZero | client/src/pages/Home.tsx:118-226 | with no filter set, the raw score is 0 and no term or flag is shown |
| BottomPicker.RankedList | client/src/pages/Home.tsx:228-253 | the output is sorted, holds exactly the normalised candidates other than the ally support, scores lie in [20, 100], and all are 50 when blind |
| BottomPicker.ScoresFollowRawScores | client/src/pages/Home.tsx:229-250 | among candidates with data a higher raw score never gets a lower score |
| SupportPicker.Answer | client/src/pages/SupportPicker.tsx:134-138 | assassin is answered by enchanter, tank by poke, poke by engage |
| SupportPicker.ScoreCandidate | client/src/pages/SupportPicker.tsx:60-161 | the per-support body, run block by block, computes exactly the raw score, `hasData` and breakdown `Score` defines |
| SupportPicker.AddThreat | client/src/pages/SupportPicker.tsx:133-144 | the threat block adds 2 and sets data exactly when the support's type answers the threat |
| SupportPicker.AddSynergy | client/src/pages/SupportPicker.tsx:71-91 | the synergy block adds twice the weighted pooled synergy and sets data when there is a record |
| SupportPicker.AddEnemyBot | client/src/pages/SupportPicker.tsx:97-113 | the enemy-bottom block subtracts 1.5 times the enemy laner's weighted record and shows its delta negated |
| SupportPicker.AddEnemySupport | client/src/pages/SupportPicker.tsx:116-130 | the enemy-support block adds the support's own weighted record |
| SupportPicker.SynergyTerm | client/src/pages/SupportPicker.tsx:71-91 | selecting an ally laner adds exactly 2·weightedDelta of the pooled synergy |
| SupportPicker.SynergyAvailable | client/src/pages/SupportPicker.tsx:71-87 | synergy is pooled exactly when the ally resolves and either table holds the pair; the breakdown shows the total games |
| SupportPicker.EnemyBotTerm | client/src/pages/SupportPicker.tsx:97-113 | selecting an enemy laner adds exactly −1.5·weightedDelta of its record against the support, shown with the delta negated |
| SupportPicker.EnemyBotSign | client/src/pages/SupportPicker.tsx:93-109 | the enemy laner doing well against a support lowers its score, and doing badly raises it |
| SupportPicker.EnemySupportTerm | client/src/pages/SupportPicker.tsx:116-130 | selecting an enemy support adds exactly weightedDelta of the support's own `vsSupport` record, present exactly when that record exists |
| SupportPicker.ThreatBonus | client/src/pages/SupportPicker.tsx:133-144 | selecting a threat adds exactly 2 when the support's type answers it, and nothing otherwise |
| SupportPicker.HasData | client/src/pages/SupportPicker.tsx:89-142 | a support has data exactly when one of the four terms contributed; without data its raw score is 0 |
| SupportPicker.RankedList | client/src/pages/SupportPicker.tsx:163-186 | the output is sorted, holds exactly the normalised supports other than the ally laner's id, scores lie in [20, 100], and all are 50 when blind |
| SupportPicker.ScoresFollowRawScores | client/src/pages/SupportPicker.tsx:163-183 | among supports with data a higher raw score never gets a lower score; supports without data score 50 |
| Filters.ThreatName | client/src/pages/Home.tsx:64 | a threat is spelled "assassin", "tank" or "poke" |
| Filters.ParseThreat | client/src/pages/Home.tsx:54-56 | a parameter names a threat exactly when it is one of the three spellings |
| Filters.ParseThreatName | client/src/pages/Home.tsx:54-56 | parsing a threat's spelling gives the threat back |
| Filters.Known | client/src/pages/Home.tsx:41-42 | a parameter is accepted exactly when it is truthy and the id of a listed champion |
| Filters.BottomFilters.FromQuery | client/src/pages/Home.tsx:34-57 | the load guard takes each valid parameter, refuses an enemy support equal to the ally parameter, and so leaves the two supports different |
| Filters.BottomFilters.SelectAllySupport | client/src/pages/Home.tsx:73-78 | sets the ally support and clears an equal enemy support; afterwards the two are never the same selected champion |
| Filters.BottomFilters.SelectEnemySupport | client/src/pages/Home.tsx:80-85 | sets the enemy support and clears an equal ally support; afterwards the two are never the same selected champion |
| Storage.OrNull | server/storage.ts:58-62 | `value \|\| null` keeps exactly the truthy values |
| Storage.NewDraft | server/storage.ts:51-65 | a new draft copies name and champion, nulls falsy optional fields, and has createdAt = updatedAt = now |
| Storage.FindUser | server/storage.ts:28-32 | `find` returns the first user with the username, and nothing when none has it |
| Storage.Without | server/storage.ts:83-85 | removing a key keeps exactly the other keys |
| Storage.MemStorage.constructor | server/storage.ts:19-22 | a new store is empty |
| Storage.MemStorage.GetUser | server/storage.ts:24-26 | returns the user stored under the id, and nothing for an unknown id |
| Storage.MemStorage.GetUserByUsername | server/storage.ts:28-32 | returns a stored user with the username, the first in insertion order, and nothing exactly when no user has it |
| Storage.MemStorage.CreateUser | server/storage.ts:34-39 | stores the user under the fresh id and changes nothing else |
| Storage.MemStorage.GetDrafts | server/storage.ts:41-45 | returns every stored draft exactly once, newest first, ties in insertion order |
| Storage.MemStorage.DraftValuesOnce | server/storage.ts:42 | each stored draft occurs once among the map's values, and each value is stored under its id |
| Storage.MemStorage.GetDraft | server/storage.ts:47-49 | returns the draft stored under the id, and nothing for an unknown id |
| Storage.MemStorage.CreateDraft | server/storage.ts:51-67 | adds exactly one entry, under the fresh id, leaves the others unchanged, and `getDraft(id)` then returns it |
| Storage.MemStorage.UpdateDraft | server/storage.ts:70-81 | an unknown id returns nothing and changes nothing; a known one gets the patch applied and the new time, and the others are untouched |
| Storage.MemStorage.DeleteDraft | server/storage.ts:83-85 | returns whether the id was present; afterwards it is absent and the other entries are unchanged |
| Storage.PatchNothing | server/storage.ts:74-78 | an empty patch only restamps `updatedAt` |
| Storage.PatchFields | server/storage.ts:74-78 | a patch keeps id and createdAt, sets exactly the supplied fields, and applying it twice is applying it once |

## Left out

- The exponential in `weightedDelta` and the square root in `confidenceMargin` are not modelled.
  - The confidence curve is a parameter that is 0 at zero games, below 1 and non-decreasing.
  - The square root is a parameter that is non-negative on non-negative arguments.
  - So the model does not state the margin's numeric value, only when it is null and that it is non-negative.
- Weighting.ConfidenceMargin: the constants 1.96 and 100 are applied but the value is not otherwise constrained, because the square root is abstract.
- JavaScript doubles are modelled as exact reals. Rounding error and `NaN` or infinite deltas are not modelled. One consequence: `Weighting.WeightedDelta` promises a weighted delta strictly smaller in magnitude than a non-zero delta, which holds for the real-valued curve; in doubles `1 - Math.exp(-g / 1000)` rounds to exactly 1 from roughly 37,000 games on, and there `weightedDelta` returns the delta unchanged.
- `toLowerCase` is modelled on ASCII letters only.
  - Other Unicode case mappings are not modelled.
  - The whitespace class is JavaScript's `\s`.
- Property lookups on plain objects ignore inherited keys.
  - A raw name such as "constructor" would find `Object.prototype` members in the source.
  - The model treats it as a normal key.
- A feed record whose `delta` is `null` is stored by the source, since it checks only `!== undefined`. The model has no such record: a delta is present or absent.
- The feed, `./champions` and the JSON file are inputs.
  - Their contents are parameters.
  - The order of `Object.entries` is the order of the given sequence.
- The breakdown's display names are `Option` values.
  - A selected champion that is not found, or whose name is empty, shows as absent.
  - The source shows `undefined` or `""` there.
- Browser I/O is not modelled:
  - the URL-writing effects (`Home.tsx:59-71`, `SupportPicker.tsx:41-53`);
  - the support picker's own URL guard;
  - all JSX and components.
- The enemy-laner and threat setters of the bottom picker are plain assignments and are not modelled as methods. The load guard sets them.
- `handleLoadDraft` (`Home.tsx:87-97`) is not modelled. It writes both supports from a draft without the exclusion check.
- Filters.BottomFilters.SelectAllySupport: exclusivity holds for truthy selections only. Selecting `""` while the other side is `""` leaves both equal, as the source's `value &&` test does.
- The weight labels of the filter bar are not modelled; the scores use the weights in the code.
- Storage: `randomUUID` and `new Date()` are parameters.
  - A fresh id is a precondition.
  - A time is its millisecond count.
  - The `Promise` wrapping, the HTTP routes and the schema validation are not modelled.
- Storage.MemStorage.UpdateDraft: a patch key present with the value `undefined` is treated as absent. In the source, a spread would copy it.
