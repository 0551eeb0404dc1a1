# Roguelike run-history analysis, modelled in Dafny

This project models the analysis core of a desktop tool that reads a player's roguelike
("rogue") run history from a game companion API, keeps every run in a local SQLite table, and
reports win rates, win streaks, "fifth ending" statistics and the details of the most recent runs
of one theme. It also covers the theme summary of the player-info payload and the squad alias lookup.

Modules, one per part of the program:

- `Runs` (`runs.dfy`): the run record. `score` and `modeGrade` are optional, because the code reads a
  missing score as 0 in the statistics but shows "N/A" in the details, and shows a missing `modeGrade`
  as "N/A"; the last stage and the squad name are optional too. Other absent fields appear with the one
  default the analysis reads them with (empty id, time stamp 0, empty lists); the store keeps a missing
  `startTs` as NULL instead, a difference recorded on the `RecordStore.DataManager.GetAllRuns` line of "## Left out".
- `Endings` (`endings.dfy`): `_determine_ending`. `Classify` is a flat reference definition of the
  label; `DetermineEnding` builds the label as the source does, with a list of parts, `insert`, `append` and
  `' '.join`. It is proved equal to `Classify`.
- `Streaks` (`streaks.dfy`): `_calculate_max_streak`. `LongestStreak` is the reference definition and is
  proved to be the length of a longest block of `true` values. The method computes it with the
  source's two counters.
- `RecordStore` (`record_store.dfy`): `DataManager`. The `rogue_runs` table is a map keyed by run id
  alone, held in a class. Merge is an in-place update, defined by `Merged`. `get_all_runs` is a
  filtered, newest-first read, specified by `IsPartitionListing`.
- `RogueService` (`rogue_service.dfy`): the score and seven-day filters, `get_stats`, the loop that
  builds the recent-run details, `_analyze_records`, and `get_analysis_for_theme` over a record store.
- `RogueSummary` (`rogue_summary.dfy`): `RogueClient.get_rogue_summary`, taking the player info as a parameter.
- `Aliases` (`aliases.dfy`): `AliasService.get_squad_alias`, with the loaded alias table as a constructor parameter.
- `Wrappers`, `Text`: an `Option` type and Python's `join`, `startswith` and substring `in`.

What the proofs establish, beyond each operation's own contract:

- The fifth-ending test (label starts with "完成结局: 5" or contains "滚动 5") can never pass for a
  won run. After "完成结局: " a won label continues with "1", "2" or "滚动 ", and "滚动 " is always followed by "1" or "2".
  So the fifth rate and the fifth streak are always zero (`Endings.WonLabelNeverFifth`,
  `RogueService.FifthStatsAlwaysZero`). The model keeps the test as written. The lemma is stated for
  won runs only: a failed run's label repeats its stage, so a run that stopped at a stage named
  "滚动 5" is labelled "驻足于: 滚动 5" and does contain "滚动 5". The statistics apply the test to
  won runs alone (lines 94 and 97 of src/services/rogue_service.py), so the conclusion stands.
- A won run's label is a space-joined list of parts. A run that is not rolling and whose only ending relic
  is ending 3 is "完成结局: 1 3", and one with no ending relic is "完成结局: 1 ", with an empty last part.
- The list of reached ending numbers is built in table order and is already strictly increasing. So the
  source's `sorted` call is the identity, and the model leaves it out (`Endings.EndingNumbersSorted`).
- Merging is last-write-wins by id and never deletes a row. Re-merging an id under another uid or theme moves that row.
  Merging the same batch twice gives the same table as merging it once.

Facts about the code that the model keeps as they are:

- The table's primary key is the run id alone, so re-merging an id under another uid or theme moves its row (src/services/data_manager.py:23,44).
- A won label keeps "1" and the ending digits as separate space-joined parts, e.g. "完成结局: 1 3" (src/services/rogue_service.py:56-58,68).
- `get_stats` computes no current streak, only the longest ones (src/services/rogue_service.py:86-102).
- The duration is computed even when a time stamp is 0 (src/services/rogue_service.py:115).
- The relic table is a constant in the code (src/services/rogue_service.py:7-16).

## Model

| member | source | states |
|---|---|---|
| `Text.Join` | src/services/rogue_service.py:58 | a join starts with its first part, and a single part joins to itself |
| `Text.StartsWith` | src/services/rogue_service.py:94 | `startswith` holds iff the prefix fits and agrees character by character |
| `Text.Contains` | src/services/rogue_service.py:94 | substring `in` holds iff the text starts at some position of the string |
| `Endings.StageText` | src/services/rogue_service.py:44-45 | a missing or empty last stage reads as "事件", any other stage as itself |
| `Endings.Egg` | src/services/rogue_service.py:60-66 | an egg only when ending 5 is reached; then 超大蛋 if its relic is present, else 大蛋 if its relic is present, else 小蛋 if its relic is present, else no egg |
| `Endings.Classify` | src/services/rogue_service.py:39-68 | the rolling flag holds iff the rolling relic is present; a label starts with "驻足于: " iff the run was not won and with "完成结局: " iff it was |
| `Endings.DetermineEnding` | src/services/rogue_service.py:39-68 | building the parts list (rolling word, "1" inserted unless ending 2, joined ending numbers, egg) and joining it with spaces gives exactly the reference label and flag |
| `Endings.EndingNumbers` | src/services/rogue_service.py:51-53 | at most four ending numbers, each one of "2", "3", "4", "5" |
| `Endings.EndingNumbersMeaning` | src/services/rogue_service.py:51-55 | "2" (resp. "5") is among the ending numbers iff ending 2's (resp. 5's) relic is present |
| `Endings.EndingNumbersSorted` | src/services/rogue_service.py:51-53 | the ending numbers are single digits in strictly increasing order, so sorting them changes nothing |
| `Endings.EndingNumbersJoin` | src/services/rogue_service.py:58 | `"".join(ending_numbers)` is the digits of the reached endings in table order |
| `Endings.JoinParts` | src/services/rogue_service.py:68 | joining the parts with spaces puts one space after the rolling word and after "1", and one before the egg |
| `Endings.OnlyEnding3Label` | src/services/rogue_service.py:50-68 | a won, non-rolling run whose only ending relic is ending 3 (other relics allowed) is labelled "完成结局: 1 3" |
| `Endings.NoRelicsLabel` | src/services/rogue_service.py:50-68 | a won, non-rolling run with no ending relic (other relics allowed) is labelled "完成结局: 1 ", with an empty trailing part |
| `Endings.WinCoreShape` | src/services/rogue_service.py:55-66 | after the rolling word a won label continues with "1" or "2" and never holds "滚" |
| `Endings.WonLabelNeverFifth` | src/services/rogue_service.py:94-99 | no won run's label starts with "完成结局: 5" or contains "滚动 5" |
| `Streaks.TrailingWins` | src/services/rogue_service.py:72-74 | the open streak is at most the list length |
| `Streaks.LongestStreak` | src/services/rogue_service.py:70-78 | the longest streak is at most the list length (0 on an empty list) |
| `Streaks.TrailingWinsBlock` | src/services/rogue_service.py:72-77 | the open streak is a block of wins ending the list, and no block ending the list is longer |
| `Streaks.LongestStreakIsLongest` | src/services/rogue_service.py:70-78 | some block of consecutive wins has the longest-streak length and no block is longer |
| `Streaks.AllLossesNoStreak` | src/services/rogue_service.py:70-78 | a list without a win has streak 0 |
| `Streaks.StreakMonotone` | src/services/rogue_service.py:70-78 | pointwise implication between equal-length lists never lowers the longest streak |
| `Streaks.CalculateMaxStreak` | src/services/rogue_service.py:70-78 | the two-counter loop returns the longest streak |
| `RogueService.Filter` | src/services/rogue_service.py:81-84 | a comprehension keeps exactly the elements that pass, each as often as in the input and nothing else, and is no longer than its input |
| `RogueService.FilterAppend` | src/services/rogue_service.py:81-84 | a comprehension keeps the input's order: filtering a concatenation is concatenating the filtered parts |
| `RogueService.FilterNone` | src/services/rogue_service.py:94-95 | a comprehension nothing passes is empty |
| `RogueService.ValidRuns` | src/services/rogue_service.py:81 | `valid_records` holds each run whose score (0 when absent) exceeds 100, as often as in the input, and no other run |
| `RogueService.SevenDayRuns` | src/services/rogue_service.py:82-84 | the seven-day runs are the valid runs started after now − 7 days, each as often as among the valid runs |
| `RogueService.Wins` | src/services/rogue_service.py:90 | `wins` holds each record with `success == 1`, as often as in the input, and no other |
| `RogueService.FifthWins` | src/services/rogue_service.py:94-95 | `fifth_wins` holds each won record whose label passes the fifth-ending test, as often as in the input, and no other |
| `RogueService.FifthLabel` | src/services/rogue_service.py:94-99 | the fifth-ending test: the label starts with "完成结局: 5" or contains "滚动 5" |
| `RogueService.WinFlags` | src/services/rogue_service.py:92 | one flag per record, true iff `success == 1` |
| `RogueService.FifthFlags` | src/services/rogue_service.py:97-99 | one flag per record, true iff the run was won and its label passes the fifth-ending test |
| `RogueService.GetStats` | src/services/rogue_service.py:86-102 | all-zero stats on an empty list; otherwise win rate = wins / total with wins ≤ total, fifth wins ≤ wins, max streak = longest win streak ≤ total, max fifth streak = longest fifth-win streak ≤ max streak |
| `RogueService.FifthWinsAreWins` | src/services/rogue_service.py:90-95 | every fifth win is a win of the list |
| `RogueService.FifthStatsAlwaysZero` | src/services/rogue_service.py:94-99 | as written, the fifth rate's numerator and the max fifth streak are always 0 |
| `RogueService.SevenDayWithinValid` | src/services/rogue_service.py:81-84 | seven-day runs ≤ valid runs ≤ all runs; each seven-day run is a stored run with score > 100 that started after now − 7 days |
| `RogueService.TotemCount` | src/services/rogue_service.py:116-117 | the sum of the fragment items' counts; never negative when no count is |
| `RogueService.TotemCountAppend` | src/services/rogue_service.py:116-117 | the totem count of a concatenation is the sum of the counts |
| `RogueService.TotemCountNoFragment` | src/services/rogue_service.py:116-117 | a totem list without `rogue_4_fragment_I_1` items counts 0 |
| `RogueService.SliceLen` | src/services/rogue_service.py:108 | Python's `all_records[:n]` length: min(n, len) for n ≥ 0, max(0, len + n) for negative n |
| `RogueService.Detail` | src/services/rogue_service.py:110-118 | a detail is marked won iff its ending starts with "完成结局: " and lost iff it starts with "驻足于: "; rolling iff the rolling relic is present; squad "N/A" when the run has none |
| `RogueService.RecentDetails` | src/services/rogue_service.py:107-118 | one detail per run of `all_records[:n]` |
| `RogueService.BuildRecentRuns` | src/services/rogue_service.py:107-118 | the loop yields SliceLen(n, \|all\|) details in order; `is_success` iff `success == 1`, ending and rolling flag from the classifier, totem count, duration `endTs - startTs` |
| `RogueService.FindTopic` | src/services/rogue_service.py:28 | a topic is found iff some topic has exactly the theme name, and the found topic has that name |
| `RogueService.Analysis` | src/services/rogue_service.py:80-128 | total runs = valid runs ≤ all runs, seven-day runs ≤ total runs, streaks bounded by their run counts, fifth statistics zero, \|recent details\| = SliceLen(n, \|all\|) |
| `RogueService.AnalyzeRecords` | src/services/rogue_service.py:80-128 | the method with its recent-run loop yields the report `Analysis` specifies |
| `RogueService.Service.constructor` | src/services/rogue_service.py:20-22 | the service owns a fresh, empty record store |
| `RogueService.Service.GetAnalysisForTheme` | src/services/rogue_service.py:24-37 | no report without a payload or matching topic; merges only a non-empty fetched history and leaves the store unchanged otherwise; no report iff the partition is then empty; else the analysis of a newest-first listing of the partition |
| `RecordStore.Merged` | src/services/data_manager.py:35-46 | the reference merge: no id is dropped, and every row added or replaced carries the merge's uid and theme |
| `RecordStore.Pending` | src/services/data_manager.py:34-40 | the rows to insert have non-empty ids, carry the given uid and theme, and are no more than the runs |
| `RecordStore.UpsertPending` | src/services/data_manager.py:34-46 | building the rows and inserting or replacing them one by one is merging the batch |
| `RecordStore.MergedKeys` | src/services/data_manager.py:35-46 | after a merge the ids are the old ids plus the non-empty ids of the batch: no row is deleted, no id-less run is stored |
| `RecordStore.MergedUntouched` | src/services/data_manager.py:42-46 | a row whose id is not in the batch is unchanged |
| `RecordStore.MergedLastWins` | src/services/data_manager.py:38-46 | each batch id maps to the last run with that id, tagged with the merge's uid, theme and that run's start time (so the row moves partition) |
| `RecordStore.MergedIsOverwrite` | src/services/data_manager.py:42-46 | a merge overwrites the table with the rows the batch alone produces |
| `RecordStore.MergeIdempotent` | src/services/data_manager.py:44 | merging the same batch twice leaves the table as merging it once |
| `RecordStore.MergedValid` | src/services/data_manager.py:38-40 | a merge keeps every row filed under its own id with its record's start time |
| `RecordStore.InsertionPoint` | src/services/data_manager.py:52 | the insertion point splits a newest-first list into runs starting later and runs starting no later |
| `RecordStore.InsertKeepsOrder` | src/services/data_manager.py:52 | inserting at the insertion point keeps a list ordered by start time, descending |
| `RecordStore.GatherStep` | src/services/data_manager.py:50-55 | reading one more row keeps the partial listing exact, once each, newest first |
| `RecordStore.DataManager.constructor` | src/services/data_manager.py:13-29 | a new store holds an empty table |
| `RecordStore.DataManager.MergeAndSaveRuns` | src/services/data_manager.py:31-47 | an empty batch changes nothing; otherwise the table becomes the merge of the batch |
| `RecordStore.DataManager.GetAllRuns` | src/services/data_manager.py:49-55 | returns exactly the stored records of the (uid, theme) partition, each once, ordered by start time descending |
| `RogueSummary.ThemeName` | src/rogue.py:31-33 | the name from `rogueInfoMap[rogueId]` when present, otherwise "未知主题 (<rogueId>)" |
| `RogueSummary.ThemeOf` | src/rogue.py:35-39 | one theme entry: its `relicCnt` as given, its `bank` or `{}` when absent |
| `RogueSummary.GetRogueSummary` | src/rogue.py:14-41 | no summary without player info or with a missing or empty rogue section; otherwise one theme per record in order, with its name, `relicCnt` and `bank` (default empty) |
| `Aliases.AliasService.constructor` | src/services/alias_service.py:8-19 | a missing or malformed alias file gives an empty table |
| `Aliases.AliasService.GetSquadAlias` | src/services/alias_service.py:21-22 | a squad with an alias maps to it; any other squad name is returned unchanged |
| `Aliases.DisabledIsIdentity` | src/services/alias_service.py:17-22 | with an empty table every lookup is the identity |

## Left out

- Authentication, request signing and every network call (src/auth.py, src/api/skland_client.py, src/fetcher.py, src/player.py). These are HTTP and HMAC/MD5 through foreign libraries. Their results are parameters here: the rogue payload, the uid and the player info.
- The Tkinter UI and its background thread and callbacks (src/ui/). This is concurrency and rendering.
- Process and file plumbing: src/bootstrap.py, src/utils.py, src/config.py, the console entry points main.py and rogue_analyzer.py, and reading aliases.json in `_load_aliases`. The parsed file, or its absence, is the alias service's constructor parameter.
- SQLite itself: durability across restarts, transactions, `close()` and the `json.dumps`/`json.loads` round trip. A record is stored as the value itself, and a new store starts empty.
- `RogueService.GetStats`: rates are numerator/denominator pairs, not the `:.2f` percentage strings. The empty case "0.00%" is `Percentage(0, 1)`.
- `RogueService.Detail`: the start date (`'%m-%d'` in local time) is kept as the raw timestamp. The duration is the integer `endTs - startTs` and not hours to one decimal place. Both are floating-point or locale formatting.
- `RecordStore.DataManager.GetAllRuns`: a run without `startTs` is stored with a NULL `start_ts`, which SQLite sorts after every number in a descending read; the model stores 0, as the analysis reads it, so such a run is ordered among the runs whose start time is 0 or less.
- `RogueService.SevenDayRuns`: `datetime.now()` is the parameter `now` in epoch seconds. The window test is `startTs > now - 7*86400`. The source compares naive local date-times, so when a daylight-saving change falls inside the week its window edge moves by the change of offset; the epoch-second test does not model that shift.
- Logging calls, which have no effect on results.
- The `RogueClient` constructor's check that the player client is ready. It raises before any summary can be asked for.
- Field values of dynamic type (an id or start time that is not a string or integer): the record's fields have fixed types.
