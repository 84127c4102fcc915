# Trading scorecard: bookkeeping core in Dafny

This project models the logic under the user interface of a weekly
trading-discipline scorecard (`app.js`, a single browser script). A week has
five weekday rows. Each row has five 0/1 toggles, one per tracked rule
(`AlertMode`, `Limit`, `Aligned`, `Reset 5min`, `Process/notPnL`), plus a note
and a day-off flag. Three parts of the script are modelled:

- Week statistics (`Calc.weekStats`): checked and possible points, active
  and perfect days, and a tally per category.
- The lifecycle of the current week and of the archive: reset, archive,
  delete an archived week, edit its profit, clear, and the aggregate panel.
- The settings clamp, and the backup/restore rules against a GitHub gist.
  These are modelled as pure functions over the local key/value store.

Modules, one per component of the script:

| file | module | models |
|---|---|---|
| `wrappers.dfy` | `Wrappers` | `Option` (JavaScript `null`) and `Result` |
| `text.dfy` | `Text` | `String.prototype.trim` and the "blank" test |
| `records.dfy` | `Records` | the week/day records, the field list, the toggle and day-off clicks |
| `calc.dfy` | `Calc` | `Calc.weekStats` and reference definitions of each counter |
| `settings.dfy` | `Settings` | `Sanitize.number`, `Settings.get` defaults, `Settings.save` |
| `history.dfy` | `History` | `History.deleteItem`, `updateProfit`, `clear`, the `updateStats` aggregate |
| `current_week.dfy` | `CurrentWeek` | `CurrentWeek.reset` and `CurrentWeek.archive` |
| `github.dfy` | `GitHub` | `syncToCloud` preconditions and payload; `syncFromCloud` merge rule |

Modelling choices:

- Toggles are stored as the strings "0"/"1". They are modelled as integers
  that have already been parsed.
- `Calc.WeekStatsOf` requires only what the code needs: at most five toggles
  per active row. A sixth toggle on an active row would index a category
  that does not exist, and the fold would crash. The toggles of a day off are
  never read (app.js:485), so they may have any shape.
- Exactly five 0/1 toggles per row (`Records.WellFormedDay`) is a hypothesis
  of the lemmas that need it. The table always writes five values, and a
  click maps 1 to 0 and anything else to 1.
- The gist service is not modelled. After an accepted backup, the gist is
  assumed to hold exactly the files the backup sent (`GitHub.Uploaded`); the
  backup/restore round trip is stated under that assumption.
- Each stored document lives under its own key in local storage.
  `CurrentWeek` and `History` work on typed values: an optional current week
  and a sequence of archived weeks. `GitHub` works on the raw key→string
  map, because sync reads and writes raw strings.
- `confirm`, `prompt`, the clock and the remote server's answer are inputs.

Three behaviours of the code are worth knowing before reading the model:

- `reset` only removes the stored week (app.js:601). The table is then drawn
  empty, but no current week is stored until the next edit.
- `archive` is not atomic: it appends to the history (app.js:734-736) before
  `reset` asks its own confirmation (app.js:738). If the user declines, the
  week stays current and is also in the history.
- A profit edited after archiving is stored as the raw input text (app.js:790),
  not as a number. A profit entered at the archive prompt is parsed as a float
  (app.js:723); the model keeps its trimmed text.

## Model

| member | source | states |
|---|---|---|
| Text.TrimIsWhitespaceFreeSlice | app.js:1201-1220 | `trim` returns a contiguous slice of its input that neither starts nor ends with whitespace; everything cut away on either side is whitespace |
| Text.BlankIffAllWhitespace | app.js:1201-1220 | the test `content.trim().length > 0` fails exactly when every character of the content is whitespace |
| Records.Flip | app.js:1291-1295 | a clicked toggle always becomes 0 or 1; it becomes 0 exactly when it was 1, so a bit is inverted |
| Records.ToggleField | app.js:1291-1302 | a toggle click inverts exactly one toggle of one row; every other toggle, row, note, day-off flag and the date range are kept |
| Records.ToggleDayOff | app.js:1304-1314 | a day-off click inverts exactly that row's day-off flag and keeps everything else |
| Records.EditsPreserveWellFormed | app.js:1291-1314 | toggle and day-off clicks keep a week at five rows of five 0/1 toggles |
| Calc.Accumulate | app.js:484-500 | the fold over the rows keeps one tally per category; perfect days ≤ active days ≤ rows; no category is counted more often than there are active days |
| Calc.WeekStatsOf | app.js:474-514 | possible points = 5 × active days; perfect ≤ active ≤ rows; five category tallies; the percentage is zero exactly when there are no active days (no division); otherwise it is the fraction checked/possible |
| Calc.BitSum | app.js:488-497 | a row of 0/1 values sums to between 0 and its length, and equals its length exactly when every value is 1 |
| Calc.PerfectIffAllOnes | app.js:500 | for a well-formed row, the code's perfect-day test (row sum equals the number of categories) holds exactly when all five toggles are 1 |
| Calc.AccumulateMatchesReference | app.js:480-499 | each counter of the fold equals its own definition: active days counts non-day-off rows; checked sums their toggles; category f sums toggle f and counts rows with a toggle f; perfect counts all-ones rows |
| Calc.AddTogglesSum | app.js:488-496 | adding a row to the category tallies raises their summed checked points by the row's sum |
| Calc.CategoriesSumToTotal | app.js:480-498 | the per-category checked points sum to the week's total checked points |
| Calc.WellFormedCounters | app.js:484-503 | with well-formed rows, every category total equals the active-day count, and 0 ≤ checked ≤ total per category; 0 ≤ checked points ≤ 5 × active days |
| Calc.WeekStatsInvariants | app.js:474-514 | for well-formed rows: category total = active days, 0 ≤ checked ≤ total for each category and for the week, the category checks sum to the total, and perfect and active days match their reference counts |
| Calc.DayOffContributesNothing | app.js:484-485 | removing a day-off row from anywhere in the week leaves every statistic unchanged |
| Calc.AccumulateSkipsDayOff | app.js:484-485 | the fold's counters do not change when a day-off row is removed from any position |
| Calc.AllDaysOff | app.js:484-504 | a week made only of days off has zero checked, possible, active and perfect days, zero percentage and empty tallies |
| Calc.AllDaysOffAccumulate | app.js:484-485 | folding only day-off rows leaves the counters at their starting values |
| Calc.AllCheckedWeek | app.js:474-514 | five active rows with every toggle set give 25/25 (100%) and five perfect days |
| Calc.TwoActiveDaysExample | app.js:474-514 | one 5/5 row, one 2/5 row and three days off give active 2, possible 10, checked 7, 7/10 and one perfect day |
| Settings.Number | app.js:157-161 | the result is never below min and, when min ≤ max, never above max; a non-number gives min; an in-range integer is returned unchanged; values above or below are clamped to the nearer bound |
| Settings.NumberIdempotent | app.js:157-161 | clamping an already clamped value changes nothing |
| Settings.Get | app.js:1018-1023 | with nothing saved the goals are 75% and 2 perfect days; otherwise the saved goals |
| Settings.Save | app.js:1025-1035 | each goal is saved through the clamp: an input in [0, 100] is kept, one above 100 saves 100, one below 0 saves 0, and an input that is not a number saves 0; so both saved goals lie in [0, 100] |
| Settings.LoadSaveRoundTrip | app.js:1018-1045 | when the stored goals are in [0, 100] (the defaults, or anything a save produced), saving the form that `load` filled with the goals in effect stores the same goals again |
| History.DeleteItem | app.js:766-784 | an out-of-range index or a declined confirmation leaves the history unchanged; otherwise exactly that entry is removed, the length drops by one, and the rest keep their order (as a multiset, nothing else is lost) |
| History.ReinsertUndoesDelete | app.js:766-779 | putting the deleted entry back at its index restores the original history |
| History.UpdateProfit | app.js:786-795 | only the profit of entry `index` changes; its dates, rows, timestamp and frozen stats, and every other entry, stay as they were; an out-of-range index changes nothing |
| History.Clear | app.js:754-764 | a confirmed clear empties the history; a declined one keeps it |
| History.Aggregate | app.js:821-850 | an empty history gives the "no data" result; otherwise the week count is the length, the summed checked points, possible points and perfect days are the sums of the frozen snapshots, the average percentage is recomputed from the summed points (zero exactly when nothing was possible), and the average perfect days is total perfect days over the week count |
| History.SumTotalsAppend | app.js:835-842 | the history totals are additive over consecutive stretches |
| History.DeleteItemTotals | app.js:776-781 | after a confirmed delete, the totals drop by exactly the deleted week's frozen stats |
| History.SumTotalsDependsOnStatsOnly | app.js:835-842 | the totals depend only on the frozen stats snapshots |
| History.UpdateProfitKeepsAggregate | app.js:786-795 | editing a profit never changes the aggregate panel |
| History.ClearEmptiesAggregate | app.js:754-764 | after a confirmed clear the panel shows "no data" |
| History.EditsPreserveConsistent | app.js:766-795 | deleting and profit edits keep every snapshot equal to the statistics of its own well-formed rows |
| History.ConsistentTotalsBounded | app.js:821-842 | over consistent snapshots, 0 ≤ summed checked ≤ summed possible, and 5 × perfect days ≤ possible |
| History.ConsistentAggregateBounded | app.js:844 | over consistent snapshots, the average percentage fraction lies between 0 and 1 |
| CurrentWeek.Reset | app.js:596-603 | a confirmed reset discards the current week; a declined one changes nothing; the history is never touched |
| CurrentWeek.ProfitFromPrompt | app.js:722-723 | a profit is kept exactly when the prompt was answered with non-blank text, and it is the trimmed answer |
| CurrentWeek.Archive | app.js:709-742 | with no current week, or an empty start or end date, nothing changes; otherwise exactly one entry is appended, holding the week's dates and rows, its computed stats, the clock reading and the prompt's profit; the current week is removed only if the reset is confirmed |
| CurrentWeek.ArchiveKeepsEarlierEntries | app.js:734-736 | archiving never modifies an entry that was already in the history |
| CurrentWeek.DeleteUndoesArchive | app.js:734-736 | a confirmed delete of the newest entry right after an archive restores the previous history |
| CurrentWeek.ArchiveAddsWeekToTotals | app.js:725-736 | an archive raises the history totals by exactly the archived week's statistics |
| CurrentWeek.ArchivePreservesConsistent | app.js:725-736 | archiving a well-formed week keeps every snapshot consistent with its rows |
| CurrentWeek.DeclinedResetAllowsRepeatArchive | app.js:734-738 | if the reset is declined, archiving again appends a second entry with the same dates and rows |
| GitHub.Read | app.js:98-100 | a stored string is returned exactly when its key is present (`null` otherwise) |
| GitHub.GistIdOf | app.js:1173 | the sync uses the trimmed gist-id field when the page has one, otherwise the stored id |
| GitHub.PullWith | app.js:1171-1238 | shared restore procedure: missing token or gist id, an error status, or a failed request leaves the store unchanged; success overwrites adopted documents only, keeps every other key, and stores the gist id |
| GitHub.Pull | app.js:1171-1238 | restore: a missing token, then a missing gist id, is reported with the store unchanged; an error status or failed request changes nothing; on success each of the three documents is overwritten exactly when its remote file is present with non-blank content, every other key is kept, and the gist id is stored |
| GitHub.PullSkippingPlaceholders | app.js:1201-1220 | corrected restore: behaves as `Pull`, except that a current-week or settings file holding only `{}` is not adopted |
| GitHub.ContentOr | app.js:1121-1123 | a stored, non-empty document is uploaded as is; otherwise its placeholder is uploaded |
| GitHub.PushRequest | app.js:1097-1145 | backup is refused without a token, then when neither current week nor history is stored; otherwise it uploads the three fixed files (stored contents or placeholders) as a private gist with the fixed description, updating the known gist or else creating one |
| GitHub.Push | app.js:1097-1168 | a refused backup, an error status or a failed request leaves the store unchanged; on success only the gist id key changes, to the returned id |
| GitHub.PullAfterPushWritesPlaceholders | app.js:1121-1123 | as written: restoring what a backup uploaded, whether or not the page has a gist-id field (any field giving a non-empty id), gives back every stored document, but a current week or settings document that was not stored comes back as `{}` |
| GitHub.PullAfterPushRestoresDocuments | app.js:1201-1220 | corrected: restoring what a backup uploaded, whether or not the page has a gist-id field (any field giving a non-empty id), leaves the current week and settings exactly as they were; the history comes back as stored, or as `[]` if none was stored |

## Left out

- DOM construction, templates, event delegation, tab switching, and the rendering of archived items in reverse order: user-interface code.
- Chart rendering: a foreign library, drawn from floating-point percentages.
- `fetch`, response JSON decoding, the auto-sync timer (`toggleAutoSync`, `loadAutoSyncState`) and status messages: network and timers. The remote server's answer is an input.
- `localStorage` and `JSON.parse`/`JSON.stringify` in `Storage`: the store is an abstract typed record (`CurrentWeek.Local`) or a raw key→string map (`GitHub.Store`). The JSON link between the two is not modelled, and a failed `Storage.set` is not modelled.
- `parseInt` of toggle values and setting inputs: toggles are already-parsed integers, and a setting input is `Option<int>` (`None` = not a number). Non-numeric toggle values (NaN in the code) are not modelled.
- `parseFloat` of the profit and `new Date().toISOString()`: floating point and the clock. The profit is kept as text, and the archive timestamp is an input string.
- `Calc.WeekStatsOf`: the percentage is the exact fraction checked/possible, not the rounded `toFixed(1)` string, because floating-point formatting is left out.
- `History.Aggregate`: the average percentage and the average perfect days are exact fractions, not `toFixed(1)` strings, for the same reason.
- The goal checks in `CurrentWeek.updateStats` and `updateSums`: display only, and they compare floating-point percentages.
- `CurrentWeek.save`/`load`: they read back from and write to the DOM; the week record is taken as given.
- `GitHub.saveToken`, `removeToken`, `loadTokenState`, and `resetAll`: credential and reset buttons that only set or remove keys, with no rule worth stating.
- `GitHub.PullWith`: reports success on every `Ok` answer. In the code, redrawing after the store is written (`CurrentWeek.load`, `History.render`, app.js:1224-1227) can still throw, and the catch then shows a download error; errors raised while redrawing are not modelled.
- `GitHub.Push`: the returned gist id is assumed to be a string; a response without an id would store the text "undefined".

## Findings

| source | as written | input that shows it | evidently intended | confidence | as-written member | corrected member |
|---|---|---|---|---|---|---|
| app.js:1201-1206 | A backup uploads `{}` for a current week that is not stored (app.js:1121). A restore adopts any non-blank file, so it writes `{}` as the current week. `CurrentWeek.load` then runs `Calc.weekStats` on an object without `days`, which throws (app.js:484, 1224). A later `archive` reads `dateRange.start` of `undefined` and also throws (app.js:716). Settings get `{}` in the same way, which hides the defaults. | Archive a week and confirm the reset, so no current week is stored but a history is. Back up, then restore from the same gist. | A restore should not create a current week or settings document from the placeholder that a backup uploads for a missing one. | medium, not executed | GitHub.PullAfterPushWritesPlaceholders | GitHub.PullAfterPushRestoresDocuments |
