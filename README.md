# boat: a verified model of the prediction pipeline's rules

The boat repository scrapes Japanese boat-race ("kyotei") data and keeps a local history of
it. From that history it builds per-racer features and training rows, enumerates trifecta
(1st-2nd-3rd) and exacta (1st-2nd) bets, writes newspaper-style comments, and reconciles past
predictions against results. This project models, in Dafny, the deterministic rules in those
Python and JavaScript scripts, and proves what each rule guarantees.

Each core source file has its own module:

- `utils.dfy` (Utils): `get_past_dates`, the window of past days ending today.
- `fetch_data.dfy` (FetchData): today's data is stored and the 60 newest date keys are kept.
- `fetch_result.dfy` (FetchResult): today's results are upserted, and the single oldest key is
  deleted once there are more than 60.
- `fetch_history.dfy` (FetchHistory): missing days are fetched, appended, sorted newest first
  and cut to 30.
- `merge_data.dfy` (MergeData): new records are deduplicated by (race date, stadium, race
  number), with the existing record winning, then extended and sorted by date.
- `predict.dfy` (Predict): `generate_bets`, the five main trifectas and up to five dark bets.
- `generate_prediction.dfy` (GeneratePrediction): the trifecta and exacta loops, the comment
  tags, and `compute_accuracy`.
- `features.dfy` (Features): `build_features`, per-racer rolling windows, counts and rates.
- `ai_engine.dfy` (AiEngine): `generateCombos`, `generateAIPredictions`, `generateAIComments`
  and `learnFromResults`, which updates the module-level `aiMemory`.
- `ai.dfy` (Ai): `generateDataBasedComment`, `generateComment` and `buildPlayerData`.
- `prepare_dataset.dfy` (PrepareDataset): `extract_features`, which flattens the history into
  rows.
- `train_model.dfy` (TrainModel): the row loop of `load_history_as_dataframe`, the 100-row
  threshold and the label rule.

Two shared modules sit beside them:

- `common.dfy` (Common): Option, Python's `s[:n]`, set extremes and keys in descending
  order, `sep.join(parts)`, and facts about dividing by a positive count.
- `sorting.dfy` (Sorting): one stable insertion sort by a real key, ascending or descending. It
  stands for Python's `sorted` and `list.sort` and JavaScript's `Array.prototype.sort`, all of
  which are stable.

How the source's values are represented:

- JSON objects are Dafny maps, or sequences of pairs where the iteration order of a dict
  matters.
- Date keys (`YYYYMMDD`, `YYYY-MM-DD`) are integers, which order the same way.
- Rates are exact reals.
- A key such as `"1-3-2"` is the sequence of boat numbers `[1, 3, 2]`.
- Loops with early exits are `method`s proved equal to a specification function. The
  properties are proved about that function.
- The scraper, the random choices and JavaScript's `Number` conversion are parameters of the
  operations that use them.

Script behaviours the model keeps as written:

- With fewer than three boats, generate_prediction.py gives an empty trifecta list without
  raising an error. Its exacta list is empty only with fewer than two boats: two boats give
  r0-r1 and r1-r0.
- generate_prediction.py compares boats as whole dicts (`a == b`). A boat therefore keeps every
  key of its dict, and two different dicts with the same lane number both take part in the
  trifecta and exacta loops.
- A repeated lane number is not rejected. The later boat's comment replaces the earlier one.
- A missing field defaults as each script says; it does not propagate a null.

## Model

| member | source | states |
|---|---|---|
| Common.Head | fetch_data.py:100 | Python `s[:n]` is a prefix of `s` of length `min(n, len)` for `n >= 0`, and `max(0, len + n)` for negative `n` |
| Common.Descending | fetch_data.py:100 | `sorted(keys, reverse=True)` on distinct int keys holds every key exactly once, in strictly decreasing order |
| Sorting.SortBy | predict.py:28 | the sort returns a permutation of the input, sorted by the key (ascending or descending), and keeps elements of equal key in their input order (stable) |
| Sorting.SortSorted | merge_data.py:25 | sorting an already sorted list changes nothing |
| Sorting.CutSorted | fetch_history.py:57 | cutting a sorted list keeps a sorted sub-multiset, and every element cut off is preceded by every element kept |
| Sorting.SortedHead | fetch_history.py:57 | `sorted(...)[:n]` is sorted, is taken from the input, and every element cut off is preceded by every element kept |
| Utils.GetPastDates | modules/utils.py:18-20 | exactly `max(days, 0)` days, ascending, one day apart, the first being today − (days − 1) and the last being today |
| Utils.DefaultWindow | modules/utils.py:18 | called without an argument, the window covers 60 days, from today − 59 to today |
| FetchData.NewestFacts | fetch_data.py:100 | the kept keys are keys, there are min(number of keys, n) of them, every dropped key is smaller than every kept key, and nothing is dropped when there are at most n keys |
| FetchData.Restrict | fetch_data.py:101 | the dict rebuilt from some of its keys has exactly those keys, and is the whole dict when they are all of them |
| FetchData.Prune | fetch_data.py:100-101 | the pruned history invents no key, keeps values unchanged, has min(size, 60) keys, drops only keys older than every kept key, and equals the input when it has at most 60 keys |
| FetchData.PruneIdempotent | fetch_data.py:100-101 | pruning twice is the same as pruning once |
| FetchData.UpdateHistory | fetch_data.py:99-101 | after storing today's data and pruning: at most 60 keys, today's data under today's key when kept, other values unchanged, no invented key, and dropped keys older than kept ones |
| FetchData.TodayKept | fetch_data.py:99-100 | when today's key is the newest date, it is always kept, with today's data |
| FetchResult.RecordResults | fetch_result.py:70-76 | the date's entry is overwritten with today's results; more than 60 keys delete exactly one key, the smallest (possibly today's own); all other entries keep their values; at most 60 keys before means at most 60 after |
| FetchHistory.AllDates | fetch_history.py:34 | the 30 candidate dates are today, yesterday, and so on back to today − 29 |
| FetchHistory.AppendedFacts | fetch_history.py:46-54 | an appended entry has a date not already present and non-empty fetched data; every such candidate date is appended; distinct candidates give distinct appended dates |
| FetchHistory.KeepNewestFacts | fetch_history.py:57 | the result is sorted newest first, is taken from the history, and no dropped entry is newer than a kept one |
| FetchHistory.KeepNewestDistinct | fetch_history.py:57 | sorting and cutting create no repeated date |
| FetchHistory.AppendDistinct | fetch_history.py:46-54 | appending entries of new, themselves distinct, dates keeps the dates distinct |
| FetchHistory.UpdateHistory | fetch_history.py:34-57 | the loop appends exactly the non-empty fetches of dates not present; the result has at most 30 entries, sorted newest first, and no duplicate dates when the input has none |
| MergeData.Added | merge_data.py:22 | an incoming record is added iff its (date, stadium, race number) key is not among the old keys, as often as it occurs in the batch |
| MergeData.Merge | merge_data.py:21-25 | the merged list holds every old record plus exactly the added ones, its length is old plus added, and it is sorted by race date, stably |
| MergeData.MergeInto | merge_data.py:21-25 | the in-place extend and sort compute exactly the added records and the merge |
| MergeData.MergedKeys | merge_data.py:21-24 | after a merge, the key of every incoming record is present |
| MergeData.NothingNew | merge_data.py:22 | a batch whose keys are all known adds nothing |
| MergeData.MergeIdempotent | merge_data.py:21-25 | merging the same batch a second time changes nothing |
| MergeData.NoBatchDedup | merge_data.py:22 | two new records with the same key in one batch are both added |
| Predict.Ranked | predict.py:28 | the racers ranked by probability, highest first: a permutation of the dict's items, with ties in insertion order |
| Predict.TopIds | predict.py:29 | the three highest-ranked racers |
| Predict.BottomIds | predict.py:30 | the remaining racers, in ranked order |
| Predict.MainBets | predict.py:32-36 | exactly five triples |
| Predict.GenerateBets | predict.py:24-42 | the main bets are the five fixed orders of the top three; the dark bets are `min(5, n − 3)` entries, entry i being `[bottom[i], top[0], top[1]]`; fewer than three racers is excluded, since the source fails with an index error |
| Predict.MainBetsPermute | predict.py:29-36 | each main bet is a rearrangement of the top three |
| Predict.TopBeatsBottom | predict.py:28-30 | every top racer's probability is at least that of every other racer |
| Predict.RankedDistinct | predict.py:28 | ranking keeps racer ids distinct |
| Predict.BetsDistinct | predict.py:28-40 | with distinct dict keys: no bet repeats a racer, the five main bets differ, `[top[2], top[1], top[0]]` is not among them, and no dark bet is a main bet |
| GeneratePrediction.Gather3 | generate_prediction.py:38-52 | the remaining passes of the triple loop only extend the list, never beyond five keys, and never repeat a key |
| GeneratePrediction.TrifectaPredictions | generate_prediction.py:35-52 | the loop with `continue`, the `used` set and the three breaks computes the trifecta list: at most five keys, none repeated |
| GeneratePrediction.TrifectaOfThree | generate_prediction.py:37-52 | with three boats of different numbers at the top, the trifecta is the position orders (0,1,2), (0,2,1), (1,0,2), (1,2,0), (2,0,1), which are predict.py's main bets |
| GeneratePrediction.SharedLaneTrifecta | generate_prediction.py:37-52 | two different boats with the same number a, then a boat c, give the keys a-a-c, a-c-a and c-a-a, because whole dicts are compared |
| GeneratePrediction.TrifectaOfFew | generate_prediction.py:37-52 | with two boats or fewer, the trifecta is empty and nothing fails |
| GeneratePrediction.Gather2 | generate_prediction.py:57-68 | the remaining passes of the double loop only extend the list, never beyond three keys, and never repeat a key |
| GeneratePrediction.ExactaPredictions | generate_prediction.py:55-68 | the loop with `continue`, the `used2` set and the two breaks computes the exacta list: at most three keys, none repeated |
| GeneratePrediction.ExactaOfThree | generate_prediction.py:55-68 | with three boats of different numbers at the top, the exacta is r0-r1, r0-r2, r1-r0 |
| GeneratePrediction.SharedLaneExacta | generate_prediction.py:55-68 | over the same shared lane the exacta is a-a, a-c: the second boat only repeats the first one's keys |
| GeneratePrediction.ExactaOfTwo | generate_prediction.py:55-68 | with two boats of different numbers, the exacta is r0-r1, r1-r0 |
| GeneratePrediction.NoBoats | generate_prediction.py:27-68 | a race without boats gets empty trifecta and exacta lists |
| GeneratePrediction.Tags | generate_prediction.py:75-84 | "鋭いスタート持ち" iff st < 0.13, "モーター良好" iff motor > 50, "当地実績あり" iff local > 5 (a missing field never qualifies), in that fixed order and nothing else |
| GeneratePrediction.Comment | generate_prediction.py:86-88 | the comment is the tags and then the chosen extra phrase, joined by "、", and it always ends in "。" |
| GeneratePrediction.CommentsOfKeys | generate_prediction.py:71-88 | every lane number of the race gets a comment, and no other key does |
| GeneratePrediction.CommentsOfLastWins | generate_prediction.py:72-88 | a lane's comment is that of the last boat with that number |
| GeneratePrediction.BuildComments | generate_prediction.py:71-88 | the comment loop builds exactly the comment map |
| GeneratePrediction.PlacedFirstBest | generate_prediction.py:113-114 | the three boats kept come from the race, in place order, and every boat left out places no better, a missing place counting as 999 |
| GeneratePrediction.ActualTop3 | generate_prediction.py:114 | the actual top three are the numbers of the first min(3, n) boats by place |
| GeneratePrediction.StatsOf | generate_prediction.py:102-129 | one counter per stadium seen (races without a stadium are skipped); hit ≤ total; a stadium without a prediction keeps a zeroed counter |
| GeneratePrediction.StatsSnoc | generate_prediction.py:104-129 | one more race is exactly one more tally step |
| GeneratePrediction.TallyDay | generate_prediction.py:104-129 | the race loop of one date continues the counters exactly as tallying its races one after another |
| GeneratePrediction.NotSeen | generate_prediction.py:105-108 | a stadium that never occurs has no races and no hits |
| GeneratePrediction.StatsCount | generate_prediction.py:108-129 | a predicted stadium's total is its number of races, and its hit count is the number of those whose actual top three a predicted key matches |
| GeneratePrediction.Percent | generate_prediction.py:134-137 | the accuracy lies between 0 and 100, is 0 when there is no predicted race, and is 100 when every race hits |
| GeneratePrediction.AnyMatch | generate_prediction.py:123-128 | the scan that stops at the first match finds one iff some predicted key matches the actual top three |
| GeneratePrediction.TallyRace | generate_prediction.py:105-129 | one race's in-place counter update is one tally step |
| GeneratePrediction.ToAccuracy | generate_prediction.py:132-138 | every counter gets its percentage, and no other key appears |
| GeneratePrediction.ComputeAccuracy | generate_prediction.py:98-138 | every stadium seen gets an accuracy between 0 and 100, which is its counter's percentage, and 0 for a stadium without a prediction |
| Features.BoatContribsRanked | features.py:26-33 | only boats with a positive place, a missing place counting as 0, contribute an entry, and each carries the race's date |
| Features.ContribsRanked | features.py:23-33 | every entry appended over all races has a positive rank |
| Features.AddBoat | features.py:27-33 | one boat with a positive place appends its entry to its racer's list, adding the racer to the key order when new; any other boat changes nothing |
| Features.AddRace | features.py:26-33 | the boat loop of one race leaves the dict grouped over exactly the pairs seen plus the race's pairs |
| Features.AddDate | features.py:24-33 | the race loop of one date leaves the dict grouped over exactly the races so far plus the date's races |
| Features.GroupFacts | features.py:21-33 | the buckets hold exactly the contributing racers, each bucket is that racer's entries in loop order, and the racer order lists each of them once |
| Features.Bucket | features.py:21-33 | the nested loops build exactly these buckets and racer order |
| Features.WindowLatest | features.py:37 | the window is sorted newest first, is taken from the racer's list, and no race left out is newer than one kept |
| Features.Window | features.py:37 | the window holds min(recent_n, the racer's races) entries |
| Features.CountRank | features.py:42-44 | a place count is at most the number of races, and positive iff some race has that place |
| Features.PodiumBound | features.py:42-44 | first, second and third places together are at most the number of races |
| Features.SumRank | features.py:45 | with positive ranks, the rank sum is at least the number of races |
| Features.RowOf | features.py:41-57 | the row is for the racer and counts the window's races |
| Features.RowFacts | features.py:41-57 | 0 ≤ win_rate ≤ place2_rate ≤ place3_rate ≤ 1; target is 1 iff the window has a first place; avg_rank ≥ 1 when every rank is positive |
| Features.RowsPerRacer | features.py:36-57 | with non-empty buckets and recent_n ≥ 1, there is exactly one row per racer |
| Features.RowsWithAt | features.py:36-57 | for any window that empties no listed racer, row i is the row of racer order[i] |
| Features.RowAt | features.py:36-57 | the i-th row is the row of the i-th racer's window |
| Features.RowsBounded | features.py:36-41 | every row belongs to a listed racer and has 1 ≤ total_races ≤ recent_n |
| Features.OrderListed | features.py:27-33 | every racer in the order has a non-empty bucket whose entries all have a positive rank |
| Features.Rows | features.py:35-57 | the row loop, which skips empty windows, builds exactly the specified rows |
| Features.BuildFeatures | features.py:17-59 | `build_features` computes the rows of the buckets' windows |
| Features.RowRanked | features.py:45 | a counted racer's average rank is at least 1 |
| Features.OneRowPerRacer | features.py:21-57 | one row per racer with a counted race, in first-contribution order, each with 1 ≤ total_races ≤ recent_n and avg_rank ≥ 1 |
| Features.EntriesNonEmpty | features.py:27-29 | a racer that contributed an entry has a non-empty bucket |
| AiEngine.TriplesFacts | ai_engine.js:50-58 | n·(n−1)·(n−2) index triples, which are exactly the in-range triples of pairwise distinct positions, in strictly increasing lexicographic order |
| AiEngine.Combos | ai_engine.js:50-58 | `generateCombos` yields one combination per index triple |
| AiEngine.CombosShape | ai_engine.js:56 | every combination has three elements |
| AiEngine.CombosAt | ai_engine.js:52-56 | combination p is the elements at the positions of index triple p |
| AiEngine.PushRow | ai_engine.js:54-56 | the innermost loop pushes the combinations of one row of index triples |
| AiEngine.PushPlane | ai_engine.js:53-56 | the middle loop pushes the combinations of one plane of index triples |
| AiEngine.GenerateCombos | ai_engine.js:50-58 | the triple loop with its distinctness test computes exactly the combinations |
| AiEngine.FirstCombos | ai_engine.js:42-43 | on six elements, the first five combinations are positions 012, 013, 014, 015, 021 |
| AiEngine.LastCombos | ai_engine.js:42-44 | on six elements there are 120 combinations, the last five being positions 534, 540, 541, 542, 543 |
| AiEngine.Ranks | ai_engine.js:33-39 | one ranking row per player |
| AiEngine.RanksFacts | ai_engine.js:33-39 | the players are numbered 1..n in descending score order, each exactly as often as in the input, and ties keep input order; the input is not changed |
| AiEngine.LastN | ai_engine.js:44 | `slice(-n)` is the last min(n, len) elements |
| AiEngine.MainBets | ai_engine.js:43 | at most five main bets; bet i is the main bet of combination i |
| AiEngine.SubBets | ai_engine.js:44 | at most five sub bets; bet i is the sub bet of the i-th of the last min(5, n) combinations |
| AiEngine.Predictions | ai_engine.js:32-47 | the prediction's ranking is the players' ranking |
| AiEngine.BetValues | ai_engine.js:43-44 | for any combination of three single-digit boats, `c.join("")` is its three digits, a main bet's probability is 80 − 10·c[0] and a sub bet's is 20 + 5·c[0] |
| AiEngine.BoatsMainBets | ai_engine.js:42-43 | the main bets are 123, 124, 125, 126 and 132, each with probability 70 |
| AiEngine.BoatsSubBets | ai_engine.js:42-44 | the sub bets are 645, 651, 652, 653 and 654, each with probability 50 |
| AiEngine.FixedBets | ai_engine.js:32-47 | main and sub bets are these fixed lists, whatever the players |
| AiEngine.BetsDisjoint | ai_engine.js:42-44 | no main combo equals a sub combo |
| AiEngine.Band | ai_engine.js:20-26 | the score band is one of the five comment bands |
| AiEngine.BandComment | ai_engine.js:20-26 | the if-chain over > 3.0 / > 2.0 / > 1.2 / > 0.8 / else picks the comment of the score's band |
| AiEngine.BandMonotone | ai_engine.js:22-26 | a higher score never falls into a lower band |
| AiEngine.BandCommentsDistinct | ai_engine.js:22-26 | the five band comments differ |
| AiEngine.Comments | ai_engine.js:18-29 | one comment per player, in order, keeping the lane, with the comment of the player's score band |
| AiEngine.Bump | ai_engine.js:11-12 | recording a win adds its venue, adds exactly 1 to that (venue, combination) count and leaves every other count unchanged |
| AiEngine.LearnedAppend | ai_engine.js:6-14 | learning two runs of wins one after the other is learning their concatenation |
| AiEngine.LearnedCount | ai_engine.js:5-15 | each count rises by exactly the number of wins with that (venue, combination); results without a combination change nothing |
| AiEngine.LearnedVenues | ai_engine.js:5-15 | the venues in memory afterwards are the old ones plus every venue with a win |
| AiEngine.AiMemory.constructor | ai_engine.js:3 | the memory starts empty |
| AiEngine.AiMemory.LearnDay | ai_engine.js:7-13 | one day's loop records exactly that day's wins, in order |
| AiEngine.AiMemory.LearnFromResults | ai_engine.js:5-15 | the memory afterwards is the old memory with every win of the history recorded, days and results in order |
| Ai.Applies | ai.js:7-38 | one applicability flag per phrase |
| Ai.Chosen | ai.js:4-40 | the chosen phrases are at most the phrase list |
| Ai.GenerateDataBasedComment | ai.js:4-41 | the if-chain pushes exactly the applicable phrases, in phrase order |
| Ai.RuleOrder | ai.js:4-41 | the phrase filter over the nine rules equals, in order, what the four `if`/`else if` pairs and the single course rule push |
| Ai.ChosenPairs | ai.js:4-41 | for any nine rules whose paired rules never both apply, the filter is the concatenation of what the pairs push |
| Ai.ChosenSteps | ai.js:7-38 | the phrases come out in category order: ST, motor, local, course, eval |
| Ai.ChosenMember | ai.js:4-40 | a phrase is chosen iff one of the positions so far holds it with its flag set |
| Ai.PhrasesDistinct | ai.js:9-37 | the nine phrases differ |
| Ai.ChosenIff | ai.js:4-40 | with distinct phrases, a phrase is chosen iff its flag is set |
| Ai.PhraseRules | ai.js:8-38 | each phrase appears iff its threshold holds: ST ≤ 0.15 / ≥ 0.20, motor ≥ 50 / < 30, local ≥ 6.0 / < 4.0, course ≥ 40, eval "◎" / "△" or "×" |
| Ai.AtMostFive | ai.js:4-40 | at most one phrase per category, so at most five |
| Ai.Selected | ai.js:59-63 | the selection is the first min(2, n) shuffled phrases, followed by the drawn extra phrase |
| Ai.GenerateComment | ai.js:54-66 | the comment always ends in "。" |
| Ai.CommentParts | ai.js:55-63 | the comment has min(2, phrases) data phrases, each an applicable one, and then one extra phrase |
| Ai.Coalesce | ai.js:74-76 | `a ?? b ?? 0` keeps a present value, 0 included, and falls to the next source only when it is missing |
| Ai.EvalMark | ai.js:77 | the mark is kept when it is non-empty, otherwise "ー" |
| Ai.BuildPlayerData | ai.js:69-79 | a numeric ST is kept, a non-empty string is converted, and a missing or empty one becomes 0.20; motor, local and course follow their `??` chains; eval is defaulted |
| Ai.EmptyRecordPhrases | ai.js:69-79 | an empty boat record gets exactly the late-start, weak-motor and weak-local phrases |
| PrepareDataset.Get | prepare_dataset.py:21-36 | `dict.get(key, default)` gives the value when the key is present and the default otherwise |
| PrepareDataset.ContextOf | prepare_dataset.py:21-23 | venue, weather and water condition default to "" when absent, while date and race id are the keys |
| PrepareDataset.RowOf | prepare_dataset.py:25-37 | a row copies the race context; the entry fields default to null, and kimarite defaults to "" |
| PrepareDataset.Clean | prepare_dataset.py:24-38 | the rows of a race stop at the first entry that is not a dict |
| PrepareDataset.EntryRows | prepare_dataset.py:24-38 | one row per dict entry, in entry order |
| PrepareDataset.ExtractRace | prepare_dataset.py:20-41 | the try block yields the rows of the entries before the first failing one |
| PrepareDataset.ExtractDate | prepare_dataset.py:19-41 | the race loop concatenates the rows of each race, in order |
| PrepareDataset.ExtractFeatures | prepare_dataset.py:16-42 | the nested loops build exactly the specified dataset |
| PrepareDataset.RaceRowsContext | prepare_dataset.py:21-30 | every row of a race carries its date, race id, and its defaulted venue, weather and water condition |
| PrepareDataset.RowsFromHistory | prepare_dataset.py:18-27 | every row's date and race id are the keys that enclose it |
| PrepareDataset.DateRowsFrom | prepare_dataset.py:19-27 | every row of a date carries that date and the id of one of its races |
| PrepareDataset.BrokenRaceAddsNothing | prepare_dataset.py:20-41 | a race that is not a dict, or whose entries are not a list, adds no row, and later races still run |
| PrepareDataset.DateRowsAppend | prepare_dataset.py:18-38 | rows follow the race order: the rows of two runs of races are concatenated |
| PrepareDataset.CleanRaceCount | prepare_dataset.py:24-38 | a race whose entries are all dicts gives one row per entry |
| PrepareDataset.CleanDateCount | prepare_dataset.py:19-38 | a date whose races are all clean gives as many rows as entries |
| PrepareDataset.CleanHistoryCount | prepare_dataset.py:18-38 | when every race is clean, the row count equals the total number of entries |
| PrepareDataset.StopsAtNonDict | prepare_dataset.py:24-41 | a non-dict entry ends the race: earlier entries keep their rows and later ones give none |
| TrainModel.Get | train_model.py:34-36 | `dict.get(key)` gives the value or null |
| TrainModel.StartTiming | train_model.py:35 | the start timing is always truthy: the value when truthy, else 0.2 (0 included) |
| TrainModel.RacerClass | train_model.py:36 | the class is 1 iff the class string is "A1", else 0 |
| TrainModel.RowOf | train_model.py:30-37 | the row copies date, venue, race number and boat number |
| TrainModel.TruthyBoats | train_model.py:27-29 | falsy boats are skipped, so at most one row per boat |
| TrainModel.LoadRace | train_model.py:27-37 | the boat loop gives one row per truthy boat, or fails when a truthy boat meets a missing `race_no` |
| TrainModel.LoadVenue | train_model.py:26-37 | the race loop gives the rows of each race in order, and stops at the first failure |
| TrainModel.LoadDate | train_model.py:25-37 | the venue loop gives the rows of each venue in order, and stops at the first failure |
| TrainModel.LoadHistory | train_model.py:23-37 | the date loop gives the rows of each date in order, and stops at the first failure |
| TrainModel.Label | train_model.py:53 | the label is 1 iff the boat number equals 1 in Python's sense (the number 1, or `True`), else 0 |
| TrainModel.Labels | train_model.py:46-53 | training is skipped iff there are fewer than 100 rows; otherwise there is one label per row |
| TrainModel.GatherFacts | train_model.py:24-37 | a nested load fails iff some part fails, and otherwise sums the parts' row counts and keeps each part's row property |
| TrainModel.TruthyBoatsMember | train_model.py:28-30 | a boat gives a row iff it is a non-empty dict |
| TrainModel.RaceFacts | train_model.py:27-37 | a race fails iff it has a truthy boat and no `race_no`; otherwise it has one row per truthy boat, each with the date, the venue, a truthy start timing and a 0/1 class |
| TrainModel.VenueFacts | train_model.py:26-37 | a venue fails iff one of its races does; otherwise its row count is the sum over its races, and every row has the venue's shape |
| TrainModel.DateFacts | train_model.py:25-37 | a date fails iff one of its venues does; otherwise its row count is the sum over its venues, and every row carries the date |
| TrainModel.LoadFacts | train_model.py:23-37 | the load fails iff some date has a broken race; otherwise there is one row per truthy boat of the whole history |
| TrainModel.NoBoatsNoError | train_model.py:27-33 | a race without truthy boats never reads `race_no`, so it gives no row and no error |

## Left out

- Scraping, HTTP and JSON/CSV file I/O (`load_history`, `load_json`, `save_json`, `json.dump`, the
  try/except around `json.load`) are not modelled. The histories are the operations' inputs and
  results.
- The scraper of fetch_history.py is the parameter `fetch`.
- `get_past_dates` takes today as an integer day number. Calendar arithmetic and `strftime`
  formatting are not modelled.
- Randomness is a parameter:
  - generate_prediction.py's `random.choice` of the extra phrase is the index `pick`;
  - ai.js's extra phrase is the index `draw`;
  - ai.js's random-comparator sort is a given sequence `shuffled`, which must be a permutation of
    the chosen phrases.
- Ai.GenerateComment: the model does not capture Math.random's sort order. A random comparator
  need not even produce a permutation-uniform order.
- The ranking of generate_prediction.py (`simple_score`, a floating-point reciprocal of the start
  timing) is not modelled. The ranked boat list is the input.
- Floating-point arithmetic is not modelled:
  - rates, averages and thresholds are exact reals;
  - NaN and non-numeric JavaScript values are not represented;
  - Python `round` (generate_prediction.py:135) is left out, so accuracy is the exact percentage;
  - JavaScript `toFixed(1)` (ai_engine.js:43-44) is left out, so a bet's probability is the
    integer.
- Features.RowOf: `avg_start` is an exact real average. No bound is proved on it, because start
  timings carry no range in the source.
- JavaScript `Number(...)` string parsing (ai.js:73) is the parameter `toNumber`.
- JavaScript coerces object keys to strings. The model keeps venue keys as integers in
  `aiMemory`, and in the stats and predictions of `compute_accuracy` (`predictions.get(str(vid))`).
- generate_prediction.py:125-126 are JavaScript syntax inside a Python file, so that file does not
  parse as written. The model takes the evident intent: a race hits when some predicted key
  equals the actual top three, position by position.
- Inputs that make a script crash are not modelled as crashes:
  - a history that is not a dict, or races that are not a dict;
  - a missing `race_date` in features.py:25;
  - a missing `racer_number` in features.py;
  - a missing `racer_boat_number` in generate_prediction.py: a boat's number is always present,
    so the `KeyError` of lines 42 and 61 and the comment key `None` of line 73 are not
    represented;
  - keys of the wrong type.

  The one crash that depends on the data and is modelled is train_model.py's missing `race_no`.
  It is the `MissingRaceNo` result.
- prepare_dataset.py: the `entries` value is missing, a list of entries, or something that is not a
  list. An entry is a dict or a non-dict. A non-dict entry raises inside the `try`, which ends the
  race but keeps the rows already appended. A string or dict in place of the list is treated like
  any value that is not a list (no rows); it would really iterate to non-dict elements, which stop
  the race at the first one with the same effect.
- train_model.py: a boat is `None` or a dict. A truthy boat that is not a dict, which crashes at
  lines 33-34, is not represented. Falsy values other than `None` (0, "", []) are represented by
  `NullBoat`, which they behave like.
- GeneratePrediction.Cand3 and GeneratePrediction.Cand2: for the three fields the score and the
  comments read, an absent key and a key holding null are both `None`. Two dicts that differ
  only in that way compare equal in the model but not in Python.
- The ML parts are not modelled: model fitting and prediction (`fit`, `predict`, `train_test_split`,
  probabilities), which are foreign library calls. predict.py takes the probability dict as its
  input.
- `async` in ai_engine.js is left out. Its functions are modelled as synchronous.
- The other scripts are not part of this model: the UI and service workers, the FastAPI
  wrappers, fetch_results.py, prepare_dataset_light.py, train.py, train_ai.py,
  predict_today.py and modules/trainer.py.
