# Shiftory import verification

A Dafny model of the import side of the Shiftory server: how a workbook, an image or a text becomes a preview, how a
person reviews it, and how it is committed to and taken back from the versioned schedule, together with the queue of
recognition jobs, provider routing, refresh tokens and the rolling log. Requires Dafny 4.11;
`dafny verify dfyconfig.toml` checks everything.

## How it is laid out

- **Calendar and days.** `Calendar` (dates, texts, ranges), `DateOrder` (sorting by date), `ScheduleDomain` (segments,
  clocks, the overlap check).
- **Rules.** `RuleLanguage` (the validator and its cycle search), `RuleExpansion` (dated entries from rules),
  `RuleMeaning` (both in the rules' own fields and calendar days), `DraftSchema` (the contract of a draft).
- **Ledger.** `Snapshots`, `Review`, `Ledger` (the transactions as functions on the tables), `LedgerInvariant`,
  `LedgerOutcomes`, `LedgerRecords` (revisions and refusals), `LedgerJobs` (what the transactions do to import jobs),
  `LedgerRuns` and `LedgerHistory` (what whole runs guarantee), `LedgerWitnesses` (concrete runs), `LedgerHandlers`
  (the handlers as loops over tables updated in place), `PreviewAnchors` (previews against the ledger).
- **Import queue.** `ImportQueue` (one job with attempts, calls, outbox, and what its workers and dispatchers remember),
  `ImportQueueInvariant`, `JobSteps` (each step by the fields of the rows), `ImportQueueRuns` (every interleaving),
  `ImportSystem` (all jobs, queue entries, idempotent creation), `ImportHandlers` (the handlers on the job table).
- **Both together.** `ImportWorld` (queue and ledger over the same rows of jobs and items), `ImportWorldRuns` (its runs
  as runs of either, and what holds from preview to commit).
- **Previews.** `Preview`, `ImagePreview`, `SheetPreview`, `PreviewMeaning` (types, segments and rows by their fields).
- **Self-contained machines.** `ProviderSlots`, `ProviderRouting` (with `RoundCalls`, the call rows of a round),
  `RollingLog`, `RefreshTokens`, `Orientation`, `ExifReader`.

## Conventions of the model

- A database transaction, or one statement outside a transaction, or one Redis script, is one atomic step. Two
  statements of the program that are not in one transaction are two steps: a failed round and its attempt row, a refresh
  token consumed and its replacement stored, a leased outbox row and its delivery mark, a replay detected and its family
  revoked.
- Messages may be lost, repeated and delayed without bound: a claim may follow any message ever sent.
- There is one clock. The program takes the time of a claim from the process and the time of fenced updates from the
  database.
- Random identifiers (lease owners, dispatch tokens, JWT identifiers) and serial numbers are values not used before.
- A worker carries the position its walk through the provider list has reached: a call is recorded there or further on,
  and moves it past that provider. The INSERT of a call row has no test of its own for this; `RoundCalls.RoundIsRecorded`
  ties it to the router's loop.
- A message the queue took may be reported to the dispatcher as an error; it then counts as sent, and its row falls due
  again.
- `strings.ToLower` and `strings.ToUpper` are parameters.
- Snapshot JSON is a lossless encoding.
- A step of another job, or a statement whose WHERE clause matches nothing, does not change a job; runs are sequences of
  effective steps.

## Where the program is narrower than its documentation or its names

- The rule validator does not look at segment types, so an expanded draft can fail draft validation
  (`DraftSchema.UnknownSegmentTypeSlipsThrough`). It passes exactly when the first active rule of every day of the range
  has only known types (`DraftSchema.ExpandedDraftPasses`).
- `convertEntry` lets a missing shift snapshot pass, which the commit refuses (`ImagePreview.TrustedItemsCommit`). The
  exception never bites: shifts are created and changed only with trimmed names that are not empty
  (shiftory-server/internal/platform/httpserver/shift_routes.go:50-52, management_routes.go:170-171 beside it), and with
  such names every trusted item commits (`ImagePreview.NamedShiftsCommit`).
- A CYCLE rule counts days through a Go duration, which saturates after 106751 days; the exact condition is in
  `RuleExpansion.CycleExactWithinDuration`.
- A commit leaves the creator of an existing row alone while its after-snapshot names the committing user
  (`LedgerOutcomes.SnapshotCreatorAgrees`), so the guarantee about rollback speaks of content.
- Revoking a family does not reach a rotation under way (`RefreshTokens.RevocationIsFinal` states exactly when it is
  final).
- A version names a state of a row only together with the row's identity, which a save does not send: a day deleted by a
  rollback and made again starts at version 1, and a stale save naming version 1 overwrites it unseen
  (`LedgerWitnesses.StaleSaveAtVersionOne`). A save overwrites what its client saw exactly when the day was there all the
  time, and always from version 2 on (`LedgerHistory.SaveOverwritesOnlySeen`).
- Deleting a row sets the anchors of preview items on it to NULL, and a commit reads an item without an anchor as one
  whose day was absent. After another import's rollback an item shown as SAME can complete without a day, and one shown
  as CONFLICT can create it (`PreviewAnchors.DeletedRowLetsThrough`); the exact condition is in
  `PreviewAnchors.PreviewStandsAtCommit`.
- The state table in shiftory-server/internal/importjob/domain.go:19-47 is not consulted by the queue; the transitions
  here are those of the SQL.

## Model

| member | source | states |
|---|---|---|
| `Calendar.NextDayAddsOne` | shiftory-server/internal/importjob/image_processor.go:457-460 | stepping a date by one day adds exactly one to its day number, across month ends and leap years, and keeps it a real date |
| `Calendar.SameNumberSameDay` | shiftory-server/internal/importjob/image_processor.go:457-460 | two valid dates with one day number are the same date |
| `Calendar.ParseDate` | shiftory-server/internal/schedule/domain.go:29-35 | an accepted text is the canonical text of the date it parses to |
| `Calendar.ParseUndoesFormat` | shiftory-server/internal/schedule/domain.go:29-35 | every printable date has exactly one accepted text, and parsing that text gives the date back |
| `Calendar.DateTextMeaning` | shiftory-server/internal/schedule/domain.go:29-35 | a text is accepted exactly when it is ten characters, digits but for two dashes, whose numbers are the year, month and day of a date that exists, and it parses to that date |
| `Calendar.MonthDays` | shiftory-server/internal/schedule/domain.go:29-35 | the months have the lengths of the Gregorian calendar, February 29 days exactly in years divisible by 4 but not by 100, or by 400 |
| `Calendar.TextOrderIsDayOrder` | shiftory-server/internal/importer/imageai/rules.go:221-254 | comparing two canonical dates as strings is comparing them as calendar days, over all years 0000 to 9999 |
| `Calendar.DatesBetween` | shiftory-server/internal/importjob/image_processor.go:447-461 | the range is refused exactly for an unparsable or inverted one; otherwise the list has the day-number difference plus one entries and its i-th entry is the start plus i days |
| `Calendar.DayListIncreases` | shiftory-server/internal/platform/httpserver/import_routes.go:281-295 | the listed dates strictly increase, so none is repeated |
| `Calendar.DayListIsTheRange` | shiftory-server/internal/platform/httpserver/import_routes.go:281-295 | a text is in the list exactly when it is a canonical date between the two ends in text order |
| `ScheduleDomain.ParseClock` | shiftory-server/internal/schedule/domain.go:53-62 | an accepted clock text is the text of the clock it parses to |
| `ScheduleDomain.ParseUndoesClockText` | shiftory-server/internal/schedule/domain.go:53-77 | parsing the text of any clock below 1440 gives the clock back |
| `ScheduleDomain.ClockMeaning` | shiftory-server/internal/schedule/domain.go:53-62 | a clock is accepted exactly as two digits of an hour below 24, a colon and two digits of a minute below 60, and its value is the minutes since midnight |
| `ScheduleDomain.SegmentErrorMeaning` | shiftory-server/internal/schedule/domain.go:120-157 | by its fields: a segment has no error exactly when it is a SHIFT with a shift or row identity and a name not blank, or a TIME_RANGE without a shift and with both times, its times come in pairs, and the end is after the start exactly when it does not cross midnight; and which error each first broken condition gives |
| `ScheduleDomain.NoSegmentError` | shiftory-server/internal/schedule/domain.go:187-191 | the segments of a day pass exactly when each of them is well formed by its fields |
| `ScheduleDomain.NeighboursSuffice` | shiftory-server/internal/schedule/domain.go:202-208 | in intervals sorted by start, neighbours being apart is equivalent to all pairs having no minute in common |
| `ScheduleDomain.DisjointAnyOrder` | shiftory-server/internal/schedule/domain.go:202-208 | being pairwise disjoint does not depend on the order of the intervals, so sorting loses nothing |
| `ScheduleDomain.SortByStart` | shiftory-server/internal/schedule/domain.go:203-203 | the result is sorted and holds the same intervals, with multiplicity |
| `ScheduleDomain.CollectSpans` | shiftory-server/internal/schedule/domain.go:186-201 | the first segment error is reported, otherwise exactly the timed segments become intervals on a two-day axis |
| `ScheduleDomain.ValidateDay` | shiftory-server/internal/schedule/domain.go:175-210 | the sort-and-scan check accepts a day exactly when, by its fields, date and status are known, a rest day has no segments, every segment is well formed and no two timed segments share a minute; otherwise it reports the first broken rule in order, overlap last |
| `ScheduleDomain.DayErrorMeaning` | shiftory-server/internal/schedule/domain.go:175-210 | which error a day gets: an unreadable date, then an unknown status, then segments on a rest day, then the error of the first segment that is not well formed, then overlap; none exactly when all of that is in order |
| `ScheduleDomain.OneCrossDaySegment` | shiftory-server/internal/schedule/domain.go:192-207 | an accepted day has at most one timed cross-day segment |
| `ScheduleDomain.CrossDayStartsLast` | shiftory-server/internal/schedule/domain.go:192-207 | that cross-day segment starts after every other timed segment |
| `ScheduleDomain.DayTotalBound` | shiftory-server/internal/schedule/domain.go:192-207 | the minutes of an accepted day never exceed 2879 |
| `RuleLanguage.ReplacementWalk.Visit` | shiftory-server/internal/importer/imageai/rules.go:126-145 | one descent of the depth-first search finds a cycle or leaves the node finished, with every node it finished lying on no cycle |
| `RuleLanguage.FindCycle` | shiftory-server/internal/importer/imageai/rules.go:126-155 | the search over all rules reports a cycle exactly when the replacement relation has one, and terminates |
| `RuleLanguage.CheckRule` | shiftory-server/internal/importer/imageai/rules.go:70-110 | a rule is accepted exactly when status, segments, condition and range meet the stated conditions, and otherwise the first of them that fails decides the error |
| `RuleLanguage.CheckShapes` | shiftory-server/internal/importer/imageai/rules.go:62-113 | the first loop accepts exactly rule lists whose rules are well formed and whose identifiers are not empty and not repeated; the first rule that is not decides the error |
| `RuleLanguage.CheckReplacements` | shiftory-server/internal/importer/imageai/rules.go:114-125 | the second loop accepts exactly when each replaced identifier exists, is another rule and does not outrank its replacer; the first replacement that is not allowed decides the error |
| `RuleLanguage.ValidateRules` | shiftory-server/internal/importer/imageai/rules.go:52-156 | a rule set is accepted exactly when it meets the declarative definition; header, shapes and replacements are looked at in this order, each reporting its first fault, and the cycle error is reported exactly when the cycle is all that is wrong |
| `RuleMeaning.ShapeMeaning` | shiftory-server/internal/importer/imageai/rules.go:70-110 | what each kind of rule must and must not carry, by its fields and in calendar days: distinct weekdays 1 to 7, dates inside the range, a cycle of 1 to 366 days with distinct offsets below it |
| `RuleMeaning.ReplacementMeaning` | shiftory-server/internal/importer/imageai/rules.go:114-125 | a replacement is allowed exactly when it names another rule of the set none of whose rules of that identifier outranks the replacing one, single dates before ranges before the rest |
| `RuleExpansion.FirstMonday` | shiftory-server/internal/importer/imageai/rules.go:231-235 | 1 January of year 1 is a Monday: weekday number 1 |
| `RuleExpansion.WeekdaysFollow` | shiftory-server/internal/importer/imageai/rules.go:231-235 | every day has the weekday after that of the day before, Monday following Sunday |
| `RuleMeaning.YearsInClosedForm` | shiftory-server/internal/importer/imageai/rules.go:225-235 | the days before a year are those of the Gregorian calendar in closed form |
| `RuleMeaning.KnownMonday` | shiftory-server/internal/importer/imageai/rules.go:231-235 | 5 October 2026 is a Monday |
| `RuleMeaning.MatchMeaning` | shiftory-server/internal/importer/imageai/rules.go:221-254 | a rule matches a day exactly when the day is within its own dates and is, by kind, its date, any day, one of its weekdays counted from a known Monday, or an offset of its cycle |
| `RuleMeaning.ActiveCounts` | shiftory-server/internal/importer/imageai/rules.go:177-205 | a rule is active exactly when it is due, no due rule outranks it, and no other such rule replaces it |
| `RuleExpansion.ActiveMeaning` | shiftory-server/internal/importer/imageai/rules.go:177-217 | a rule is active on a day exactly when it matches with the top rank of the day and no other top-rank match replaces it |
| `RuleExpansion.ActiveNeverEmpty` | shiftory-server/internal/importer/imageai/rules.go:193-205 | with an acyclic replacement relation some rule is active whenever some rule matches, so taking the first active rule is safe |
| `RuleExpansion.DecideDay` | shiftory-server/internal/importer/imageai/rules.go:177-205 | the loops over rules of one day report whether any rule matches and compute exactly the active rules |
| `RuleExpansion.Expand` | shiftory-server/internal/importer/imageai/rules.go:167-220 | the expansion fails only for an invalid rule set or range and otherwise returns exactly the entries of the days of the range; what those are in the rules' own fields is `RuleMeaning.ExpansionMeaning` |
| `RuleExpansion.EntriesAscend` | shiftory-server/internal/importer/imageai/rules.go:171-219 | entries are strictly ascending by date, at most one for each day |
| `RuleExpansion.ExpansionIsExact` | shiftory-server/internal/importer/imageai/rules.go:167-220 | a date has an entry exactly when it is in range and some rule matches it, and that entry is made from its active rules; matching in the rules' own fields is `RuleMeaning.MatchMeaning` |
| `RuleMeaning.EntryMeaning` | shiftory-server/internal/importer/imageai/rules.go:206-217 | an entry has status, note and segments of the first rule in the list that counts on its day, names exactly the rules that count, and is uncertain, with an issue, exactly when one of those says something else |
| `RuleMeaning.ExpansionMeaning` | shiftory-server/internal/importer/imageai/rules.go:167-220 | a date has an entry exactly when it lies in the range by calendar days and some rule is due by its own fields, and the entry is taken from the first rule that counts |
| `RuleExpansion.CertainMeansAgreement` | shiftory-server/internal/importer/imageai/rules.go:206-217 | an entry is certain exactly when all its active rules agree on status, note and segments, and uncertain entries carry an issue |
| `RuleExpansion.RuleOrderIrrelevant` | shiftory-server/internal/importer/imageai/rules.go:177-218 | for one day: permuting the rules changes neither whether it gets an entry nor whether that is uncertain, and keeps status, note and segments of a certain one |
| `RuleExpansion.ValidityIgnoresOrder` | shiftory-server/internal/importer/imageai/rules.go:52-155 | permuting the rules of a valid rule set keeps it valid |
| `RuleExpansion.PermutedRulesSameDraft` | shiftory-server/internal/importer/imageai/rules.go:167-220 | a rule set written in another order expands exactly when the original does, and the two drafts have the same dates and doubts and the same content wherever it is certain |
| `RuleExpansion.CycleIsPeriodic` | shiftory-server/internal/importer/imageai/rules.go:241-253 | within its window a cycle rule matches a day exactly when it matches the day one cycle later |
| `RuleExpansion.CycleExactWithinDuration` | shiftory-server/internal/importer/imageai/rules.go:241-253 | the duration arithmetic of the code agrees with counting days for every cycle length exactly when the day is at most 106751 days after the anchor, beyond which a Go duration saturates |
| `DraftSchema.ValidateDraft` | shiftory-server/internal/importer/imageai/schema.go:226-266 | a draft is accepted exactly when period, bounds, dates, statuses, issues and segment types meet the declarative definition; otherwise the period, the number of entries, or the first entry that fails decides the error |
| `DraftSchema.ExpandedEntryOk` | shiftory-server/internal/importer/imageai/rules.go:206-218 | an expanded entry meets everything a draft entry must meet exactly when its segment types are known ones |
| `DraftSchema.ExpandedDraftPasses` | shiftory-server/internal/importer/imageai/rules.go:167-219 | an expanded draft passes draft validation exactly when on every day of the range the first active rule has only known segment types; known types in all rules suffice |
| `DraftSchema.UnknownSegmentTypeSlipsThrough` | shiftory-server/internal/importer/imageai/rules.go:52-113 | a concrete valid rule set with an unknown segment type whose expansion draft validation rejects |
| `Snapshots.InOrderSortsStably` | shiftory-server/internal/platform/httpserver/import_routes.go:1471-1472 | the sort is a stable sort: ordered, with the same multiset, and segments of one sort order keep their order |
| `Snapshots.ReadBackIsCanonical` | shiftory-server/internal/platform/httpserver/import_routes.go:1551-1580 | a written day reads back ordered and with its times in pairs |
| `Snapshots.SnapshotRoundTrip` | shiftory-server/internal/platform/httpserver/import_routes.go:1469-1499 | restoring the snapshot of any day gives the day as the tables would return it: only segment row identities and input order are lost |
| `Snapshots.CanonicalRoundTrip` | shiftory-server/internal/platform/httpserver/import_routes.go:1469-1499 | on a day read from the tables the two conversions are inverse |
| `Snapshots.ReadBackByFields` | shiftory-server/internal/platform/httpserver/import_routes.go:1551-1580 | the tables give back every part of a day: only row identities of segments and an end without a start are dropped, and the segments come sorted |
| `Snapshots.SnapshotByFields` | shiftory-server/internal/platform/httpserver/import_routes.go:1469-1483 | a snapshot names every part of a day, segment by segment in order, with the times as clock texts |
| `PreviewMeaning.EquivalentMeaning` | shiftory-server/internal/platform/httpserver/import_routes.go:1502-1513 | two schedules compare as equivalent exactly when status, trimmed note and number of segments agree and the i-th segments agree in kind, shift, start, end and crossing midnight |
| `PreviewMeaning.SameDraftChangesNothing` | shiftory-server/internal/platform/httpserver/import_routes.go:1502-1513 | a draft equivalent to the snapshot of a stored day restores to its status and to segments of the same kinds, shifts and times |
| `Review.DecideAllMeaning` | shiftory-server/internal/platform/httpserver/import_routes.go:976-991 | a batch of decisions is stored exactly when every one names an item that accepts it; then each item has the last decision naming it and nothing else changes |
| `Review.StoreDecisions` | shiftory-server/internal/platform/httpserver/import_routes.go:941-1001 | the handler loop returns exactly the specified result, with state and version checked first and the version one higher on success |
| `Review.CorrectKeepsDates` | shiftory-server/internal/platform/httpserver/import_routes.go:1109-1112 | a correction changes neither the number nor the dates nor the identities of the items |
| `PreviewMeaning.CorrectedItems` | shiftory-server/internal/platform/httpserver/import_routes.go:1080-1112 | a correction rewrites exactly the items of its identity: corrected draft, no decision, anchors of the stored day, typed NEW without a stored day, SAME when the draft agrees with it and CONFLICT otherwise |
| `PreviewMeaning.EditMeaning` | shiftory-server/internal/platform/httpserver/import_routes.go:941-995 | an edit is taken only under review and for the present version, which is not 0, and leaves a version one higher |
| `PreviewMeaning.EditErrors` | shiftory-server/internal/platform/httpserver/import_routes.go:950-988 | an edit is refused for a job not under review first, then for another version, then for an item that is missing or takes no such decision |
| `PreviewMeaning.DecidableMeaning` | shiftory-server/internal/platform/httpserver/import_routes.go:982-982 | a decision is accepted for an item typed NEW or CONFLICT, and SKIP for any item |
| `LedgerHandlers.LedgerStore.WriteScheduleTx` | shiftory-server/internal/platform/httpserver/import_routes.go:1585-1653 | the row of the day is replaced under the next version or inserted as version 1, its creator kept on update, with missing shift and import references dropped |
| `LedgerHandlers.LedgerStore.WriteAndRecord` | shiftory-server/internal/platform/httpserver/import_routes.go:1293-1326 | the write appends one revision with versions and snapshots of both sides |
| `LedgerHandlers.LedgerStore.SaveSchedule` | shiftory-server/internal/platform/httpserver/schedule_routes.go:153-241 | the handler leaves the tables as the specified save does, or as they were with the specified error |
| `LedgerHandlers.LedgerStore.BatchSchedules` | shiftory-server/internal/platform/httpserver/management_routes.go:254-338 | the loops leave the tables as the specified batch does, or as they were with the error of the first bad date |
| `LedgerHandlers.LedgerStore.CheckDates` | shiftory-server/internal/platform/httpserver/management_routes.go:279-297 | the first loop reports the first date that is unreadable, repeated or makes an invalid day, if any |
| `LedgerHandlers.LedgerStore.CommitImport` | shiftory-server/internal/platform/httpserver/import_routes.go:1210-1342 | the loop with its early exits leaves the tables as the specified commit does, or as they were with the specified error; what that is by the fields of the items is `LedgerOutcomes.CommitByFields` and `LedgerRecords.CommitErrors` |
| `LedgerHandlers.LedgerStore.CommitOneItem` | shiftory-server/internal/platform/httpserver/import_routes.go:1259-1328 | one item is skipped, refused or written as the specified commit of one item does, which `LedgerOutcomes.CommitByFields` describes by the fields of the item |
| `LedgerHandlers.LedgerStore.RollbackImport` | shiftory-server/internal/platform/httpserver/import_routes.go:1345-1460 | the loop leaves the tables as the specified rollback does, or as they were with the conflict error |
| `LedgerHandlers.LedgerStore.RollbackOneDay` | shiftory-server/internal/platform/httpserver/import_routes.go:1402-1446 | one day is deleted or restored as specified, or refused |
| `LedgerInvariant.AppendWriteKeepsCore` | shiftory-server/internal/platform/httpserver/import_routes.go:1299-1326 | writing any day keeps identities, versions and ownership of imports intact |
| `LedgerInvariant.CreatedRowHasOneOwner` | shiftory-server/internal/platform/httpserver/import_routes.go:1408-1422 | a row still at the version its creating import gave it is recorded by no other import write |
| `LedgerInvariant.AppendDropKeepsCore` | shiftory-server/internal/platform/httpserver/import_routes.go:1408-1422 | deleting a day an import created, with the foreign keys set to NULL, keeps the invariant |
| `LedgerInvariant.AfterSnapshotIsRow` | shiftory-server/internal/platform/httpserver/import_routes.go:1311-1326 | the snapshot taken after a write restores to the row just written |
| `LedgerInvariant.CommitKeepsInv` | shiftory-server/internal/platform/httpserver/import_routes.go:1210-1342 | every successful commit keeps the ledger invariant |
| `LedgerInvariant.RollbackKeepsInv` | shiftory-server/internal/platform/httpserver/import_routes.go:1345-1460 | every successful rollback keeps the ledger invariant |
| `LedgerInvariant.SaveKeepsInv` | shiftory-server/internal/platform/httpserver/schedule_routes.go:153-241 | every successful manual save keeps the ledger invariant |
| `LedgerInvariant.BatchKeepsInv` | shiftory-server/internal/platform/httpserver/management_routes.go:233-340 | every successful batch keeps the ledger invariant |
| `LedgerInvariant.ReviewChangeKeepsInv` | shiftory-server/internal/importjob/repository_postgres.go:16-77 | every other change of an open import job, which touches items only under a new review version, keeps the ledger invariant |
| `LedgerInvariant.RollbackList` | shiftory-server/internal/platform/httpserver/import_routes.go:1382-1400 | the revisions a rollback works through are all writes of its job, one for each date, each still attached to the row of its day |
| `LedgerOutcomes.CommitEffect` | shiftory-server/internal/platform/httpserver/import_routes.go:1231-1334 | a commit succeeds exactly when it names the present version, which is not 0, some item is typed SAME, NEW or CONFLICT or skipped, no conflict is undecided, every item with a say finds its day as its preview did, and every draft to be written makes a valid day; then every other day is untouched and one undoable revision per write exists |
| `LedgerOutcomes.CommitByFields` | shiftory-server/internal/platform/httpserver/import_routes.go:1269-1328 | after a commit an item typed NEW or CONFLICT with a draft and with no decision or USE_IMPORTED has left status, note and segments of its draft on its day under the next version, marked with job and source; with any other type or decision, or without a draft, its day is exactly as it was |
| `LedgerRecords.CommitErrors` | shiftory-server/internal/platform/httpserver/import_routes.go:1231-1326 | each refusal in its order: missing job, job not under review, other version, nothing to trust, and then the first item by date that is an undecided conflict, stale or invalid; a second commit changes nothing |
| `LedgerOutcomes.VersionTellsOwner` | shiftory-server/internal/platform/httpserver/import_routes.go:1402-1407 | for a completed import the version alone decides: at that version the row holds the content of the after-snapshot, so the source test never adds anything |
| `LedgerOutcomes.RollbackEffect` | shiftory-server/internal/platform/httpserver/import_routes.go:1345-1448 | a rollback succeeds exactly when no day the import wrote was written since; then created days are gone, changed days hold their old content one version up, and all other days are untouched |
| `LedgerRecords.RollbackRecords` | shiftory-server/internal/platform/httpserver/import_routes.go:1408-1446 | a rollback leaves one revision per write it takes back, by date, naming user, date, job, versions and snapshots on both sides and whether the day was deleted or restored; earlier revisions keep everything but the row they are attached to |
| `LedgerRecords.RollbackErrors` | shiftory-server/internal/platform/httpserver/import_routes.go:1345-1407 | a rollback is refused for a missing job, one not completed, and a day written since; a second one changes nothing |
| `LedgerOutcomes.CommitThenRollback` | shiftory-server/internal/platform/httpserver/import_routes.go:1257-1446 | a commit followed at once by its rollback always succeeds and is the identity on content: versions of written days are up by exactly two, created days are gone, all else is untouched |
| `LedgerOutcomes.SnapshotCreatorAgrees` | shiftory-server/internal/platform/httpserver/import_routes.go:1302-1326 | the after-snapshot equals the whole row, creator included, exactly when the commit created the row or its user had created it |
| `LedgerOutcomes.SaveEffect` | shiftory-server/internal/platform/httpserver/schedule_routes.go:153-241 | a save goes through exactly for a valid day of known shifts naming the current version, 0 for an absent day, and writes that day only |
| `LedgerOutcomes.BatchEffect` | shiftory-server/internal/platform/httpserver/management_routes.go:254-338 | a batch goes through exactly for 1 to 366 distinct valid dates and writes each of them once, nothing else; a wrong number of dates is its own error, otherwise the first date that is unreadable, repeated or makes an invalid day decides |
| `LedgerRecords.SaveRecords` | shiftory-server/internal/platform/httpserver/schedule_routes.go:199-238 | a save leaves one revision: a manual creation or change naming row, versions, both snapshots and the writer |
| `LedgerRecords.SaveErrors` | shiftory-server/internal/platform/httpserver/schedule_routes.go:153-199 | an invalid day is refused before a wrong version, and that before an unknown shift |
| `LedgerRecords.BatchRecords` | shiftory-server/internal/platform/httpserver/management_routes.go:300-335 | a batch leaves one revision per date, in their order, each a batch creation or change of its day |
| `LedgerRecords.KeepByFields` | shiftory-server/internal/platform/httpserver/import_routes.go:1585-1653 | a write keeps a reference to an import or a shift exactly while that is there, and everything else of the day as it is |
| `LedgerRuns.InvAlways` | shiftory-server/internal/platform/httpserver/import_routes.go:1210-1460 | the ledger invariant holds in every state of every run |
| `LedgerRuns.RunEvolves` | shiftory-server/internal/platform/httpserver/schedule_routes.go:162-199 | over any stretch of a run a row either stays exactly as it is, gains versions, or is newly numbered, and revisions are only appended or detached |
| `LedgerRuns.VersionNamesOneContent` | shiftory-server/internal/platform/httpserver/import_routes.go:1609-1630 | over every run of saves, batches, commits and rollbacks a row identity with a version never names two contents nor two days |
| `LedgerRuns.CommitOverwritesOnlySeen` | shiftory-server/internal/platform/httpserver/import_routes.go:1276-1290 | a successful commit overwrites a day only while it is exactly the row the preview was anchored to, and creates a day only where there is none |
| `LedgerRuns.RollbackMeetsOwnWrite` | shiftory-server/internal/platform/httpserver/import_routes.go:1402-1407 | if the rollback check passes at two moments of a run the day is the very same row at both, with the content of the after-snapshot |
| `LedgerRuns.RollbackUndoesThatCommit` | shiftory-server/internal/platform/httpserver/import_routes.go:1402-1446 | if a rollback goes through, every day its commit wrote is still the row that commit left, whatever ran in between |
| `LedgerJobs.RollbackLoosens` | shiftory-server/internal/platform/database/models.go:276-276 | a rollback takes from the items of every job exactly the anchors on the rows it deleted, and changes nothing else about any job but the state of its own |
| `LedgerHistory.PresentRowIsOne` | shiftory-server/internal/platform/httpserver/import_routes.go:1609-1630 | while a day is there throughout it is one row, and its version never falls |
| `LedgerHistory.RowsAtTwoStay` | shiftory-server/internal/platform/httpserver/import_routes.go:1408-1422 | over every run a row at version 2 or more keeps its day and identity, is never deleted, and its version never falls |
| `LedgerHistory.OneSavePerVersion` | shiftory-server/internal/platform/httpserver/schedule_routes.go:162-199 | two successful saves of one day that name the same version above 0 are the same save |
| `LedgerHistory.SaveOverwritesOnlySeen` | shiftory-server/internal/platform/httpserver/schedule_routes.go:162-199 | a save overwrites exactly the content its client saw if and only if the day was there all the time since, which is if and only if it is still the same row; from version 2 on that is always so |
| `LedgerWitnesses.StaleSaveAtVersionOne` | shiftory-server/internal/platform/httpserver/schedule_routes.go:162-199 | a concrete run from an empty ledger in which a stale save naming version 1 overwrites content its client never saw |
| `LedgerHistory.RunEvolvesJobs` | shiftory-server/internal/platform/httpserver/import_routes.go:1210-1460 | over every stretch of a ledger run jobs stay, keep their owner, and one review version means the same items apart from anchors whose row was deleted |
| `LedgerHistory.ReferencesAlways` | shiftory-server/internal/platform/httpserver/import_routes.go:1593-1653 | in every run from an empty ledger no stored day refers to an import job or shift that is not there |
| `LedgerHistory.CommitTakenBack` | shiftory-server/internal/platform/httpserver/import_routes.go:1257-1446 | at any moment of such a run a commit can be taken back at once, and then every day is as it was |
| `PreviewAnchors.ImageItemsAnchored` | shiftory-server/internal/importjob/image_processor.go:245-251 | a previewed item of a model carries identity and version of the stored day, or none when there is none |
| `PreviewAnchors.SheetItemsAnchored` | shiftory-server/internal/platform/httpserver/import_routes.go:240-245 | the same for items of a workbook |
| `PreviewAnchors.CommitSeesReviewedItem` | shiftory-server/internal/platform/httpserver/import_routes.go:1244-1250 | a commit naming the review version somebody saw works on the items they saw, each unchanged or without its anchor |
| `PreviewAnchors.PreviewStandsAtCommit` | shiftory-server/internal/platform/httpserver/import_routes.go:1271-1290 | when a commit naming the reviewed version goes through, the day of a selected item is exactly the one the preview compared it with, present or absent, if and only if the item has not lost the anchor of a deleted row |
| `PreviewAnchors.DeletedRowLetsThrough` | shiftory-server/internal/platform/httpserver/import_routes.go:1271-1290 | a concrete run in which the anchor is lost: another import is taken back, and the commit then leaves no day for an item shown as SAME and creates one for an item shown as CONFLICT |
| `ImportQueue.NewJobsAreOk` | shiftory-server/internal/platform/httpserver/ai_import_routes.go:188-205 | the job rows made by the two creation paths satisfy the job invariant |
| `ImportQueue.LegacyJobIsOk` | shiftory-server/internal/importjob/legacy.go:12-12 | any job from before the outbox satisfies the job invariant |
| `ImportQueueInvariant.ClaimKeeps` | shiftory-server/internal/importjob/queue.go:162-233 | a claim, won or out of budget, keeps the job invariant |
| `ImportQueueInvariant.NextRoundFree` | shiftory-server/internal/importjob/queue.go:214-226 | the attempt a claim inserts never meets the unique index on rounds |
| `ImportQueueInvariant.CompleteKeeps` | shiftory-server/internal/importjob/repository_postgres.go:28-76 | saving a preview keeps the job invariant |
| `ImportQueueInvariant.DeferKeeps` | shiftory-server/internal/importjob/queue.go:294-316 | giving a call-free round back removes exactly the last round and keeps the job invariant |
| `ImportQueueInvariant.FailKeeps` | shiftory-server/internal/importjob/queue.go:322-338 | recording a failure keeps the job invariant |
| `ImportQueueInvariant.SettleKeeps` | shiftory-server/internal/importjob/queue.go:347-350 | the late second statement of a failure keeps the job invariant, whoever owns the job by then |
| `ImportQueueInvariant.NextGenerationKeeps` | shiftory-server/internal/platform/httpserver/ai_import_routes.go:271-273 | a new generation with its outbox row keeps the job invariant |
| `ImportQueueInvariant.CancelKeeps` | shiftory-server/internal/platform/httpserver/import_routes.go:472-478 | cancelling keeps the job invariant |
| `ImportQueueInvariant.DispatchKeeps` | shiftory-server/internal/importjob/queue.go:128-161 | leasing, delivering and postponing outbox rows keep the job invariant |
| `ImportQueueInvariant.ApplyKeepsInv` | shiftory-server/internal/importjob/queue.go:128-402 | the job invariant is inductive over all twenty-one kinds of step |
| `JobSteps.StateAfter` | shiftory-server/internal/importjob/queue.go:162-402 | the state before and after each kind of step: a claim leaves PARSING or, with the rounds used up, FAILED; a preview NEEDS_REVIEW; a deferral, retry or migration PENDING; a failure PENDING exactly when it may be tried again and rounds remain; abandonment FAILED; and so on for all kinds |
| `JobSteps.ClaimMeaning` | shiftory-server/internal/importjob/queue.go:162-233 | a claim goes through exactly for the current generation of a waiting or parsed job without a running lease; it takes the next round under a lease of the given length, interrupts the rounds still running, or fails the job when none is left |
| `JobSteps.HeartbeatMeaning` | shiftory-server/internal/importjob/queue.go:254-258 | a heartbeat goes through exactly in the hands of the worker, and the lease then runs its full length from that moment |
| `JobSteps.CompleteMeaning` | shiftory-server/internal/importjob/repository_postgres.go:16-77 | a preview is saved exactly in the hands of the worker and with one item a date; items are replaced, the version moves on, the lease ends and the attempt has succeeded |
| `JobSteps.DeferMeaning` | shiftory-server/internal/importjob/queue.go:294-316 | a round is given back exactly in the hands of the worker and when it called nobody; the job waits, one round less is used, and the attempt is gone |
| `JobSteps.FailMeaning` | shiftory-server/internal/importjob/queue.go:322-338 | a failure is recorded exactly in the hands of the worker; the job waits exactly when the failure may be tried again and the round was not the last, and fails otherwise, with the verdict to match and no lease |
| `JobSteps.SettleMeaning` | shiftory-server/internal/importjob/queue.go:347-350 | the attempt row takes the verdict exactly when it is still running, and nothing else changes |
| `JobSteps.AbandonMeaning` | shiftory-server/internal/importjob/queue.go:362-371 | the job fails exactly while it waits or is parsed, in its current generation and without a running lease |
| `JobSteps.NextGenerationMeaning` | shiftory-server/internal/platform/httpserver/ai_import_routes.go:244-273 | a retry needs a failed AI job, a migration an idle image job without outbox rows; both start a generation with no round used and a message due at once |
| `JobSteps.CancelMeaning` | shiftory-server/internal/platform/httpserver/import_routes.go:455-478 | cancelling goes through in the four open states, ends the lease, stops the running rounds of the generation and closes their open calls |
| `JobSteps.LeaseOutboxMeaning` | shiftory-server/internal/importjob/queue.go:135-145 | an outbox row is leased exactly while it is undelivered and due and no dispatcher's lease on it is running |
| `JobSteps.CloseMeaning` | shiftory-server/internal/platform/httpserver/import_routes.go:1231-1250 | to its job a commit goes through exactly under review and for the present version, which is not 0, a rollback exactly after a commit, and either changes the state alone |
| `JobSteps.NewJobsByFields` | shiftory-server/internal/platform/httpserver/ai_import_routes.go:188-205 | a recognition job starts with no round used and its message due; the job of a workbook starts under review with its items, and no step of the queue ever goes through for it |
| `JobSteps.NewJobStarts` | shiftory-server/internal/platform/httpserver/ai_import_routes.go:188-211 | a new recognition job with a round to spend can always be brought into the hands of a worker |
| `JobSteps.QueuedJobStarts` | shiftory-server/internal/importjob/queue.go:128-233 | a waiting job whose message is due can always be brought to its next round: leased, taken by the queue, delivered and claimed |
| `ImportQueueRuns.InvAlways` | shiftory-server/internal/importjob/queue.go:128-402 | the job invariant holds in every state of every interleaving |
| `ImportQueueRuns.Fencing` | shiftory-server/internal/importjob/queue.go:258-258 | a worker write takes effect only if since its own claim the job was its alone: no claim, cancellation, retry, migration, abandonment or other write came between, and generation and round are those it claimed |
| `ImportQueueRuns.OwnedThroughout` | shiftory-server/internal/importjob/queue.go:300-334 | a worker that owns the job now has owned it at every moment since it was first known to the job |
| `ImportQueueRuns.WriteNeedsLease` | shiftory-server/internal/importjob/image_processor.go:154-163 | every write by a worker, calls included, requires its unexpired lease of the same generation |
| `ImportQueueRuns.LiveLeaseStands` | shiftory-server/internal/importjob/queue.go:183-185 | an unexpired lease yields only to its owner finishing, deferring or failing and to a cancellation |
| `ImportQueueRuns.ReviewedForGood` | shiftory-server/internal/importjob/repository_postgres.go:28-34 | a job that reached review never returns to the queue |
| `ImportQueueRuns.ReviewProtected` | shiftory-server/internal/importjob/repository_postgres.go:28-34 | once in review, no machine step of any generation changes state, items, decisions or review version |
| `ImportQueueRuns.VersionPinsItems` | shiftory-server/internal/platform/httpserver/ai_import_routes.go:372-383 | the review version never decreases, and equal versions mean equal items apart from anchors whose row was deleted |
| `ImportQueueRuns.OneEditPerVersion` | shiftory-server/internal/platform/httpserver/import_routes.go:972-995 | of all decisions and corrections naming one version at most one takes effect |
| `ImportQueueRuns.CommitUsesNamedItems` | shiftory-server/internal/platform/httpserver/import_routes.go:1244-1250 | a commit works on the items seen under the version it names, apart from anchors whose row was deleted |
| `ImportQueueRuns.RoundsAreExact` | shiftory-server/internal/importjob/queue.go:186-227 | the attempts of the current generation are exactly rounds 1 to the attempt count, within the maximum, and at most one is running |
| `ImportQueueRuns.CallBudget` | shiftory-server/internal/ai/recognizer.go:87-122 | the calls recorded in one generation never exceed the maximum of rounds times the number of providers, however often rounds were given back |
| `ImportQueueInvariant.CallKeeps` | shiftory-server/internal/importjob/image_processor.go:141-162 | a call recorded where the walk through the providers stands, or further on, keeps the job invariant, so the calls of a round are at strictly ascending positions |
| `RoundCalls.RoundIsRecorded` | shiftory-server/internal/ai/recognizer.go:87-122 | for all answers of Redis and the providers the calls of a round are recorded one after the other while the worker holds its lease, and its attempt ends with exactly those calls in order |
| `ImportQueueRuns.ClaimNeverCollides` | shiftory-server/internal/importjob/queue.go:223-226 | in no reachable state is the unique index on rounds what stops a claim |
| `ImportHandlers.ImportStore.ClaimMessage` | shiftory-server/internal/importjob/queue.go:162-233 | the claim takes the specified step or changes nothing; busy only under a live lease, exhausted only by failing the job |
| `ImportHandlers.ImportStore.Beat` | shiftory-server/internal/importjob/queue.go:254-267 | a heartbeat extends the lease as specified or is refused |
| `ImportHandlers.ImportStore.SavePreview` | shiftory-server/internal/importjob/repository_postgres.go:16-77 | the loop of inserts and the update together take the specified step, a repeated date undoing all of it |
| `ImportHandlers.ImportStore.RecordFailure` | shiftory-server/internal/importjob/queue.go:287-346 | a deferral gives the round back exactly when it may; otherwise the job has no lease and waits exactly when the failure is deferred or retryable, the queue would deliver again and the round was not the last, and has failed otherwise, with the verdict to match; or nothing happens when the lease is gone |
| `ImportHandlers.ImportStore.SettleAttemptRow` | shiftory-server/internal/importjob/queue.go:347-350 | the later update of the attempt row takes the specified step, whatever happened to the job meanwhile, and leaves job row and lease alone |
| `ImportHandlers.ImportStore.Reconcile` | shiftory-server/internal/importjob/queue.go:373-401 | exactly the AI jobs that wait or are parsed without a running lease and whose delivered message is lost fail; every other job is untouched |
| `ImportHandlers.ImportStore.MigrateLegacy` | shiftory-server/internal/importjob/legacy.go:11-74 | exactly the idle legacy image jobs start their first queued generation; every other job is untouched |
| `ImportHandlers.ImportStore.CancelImport` | shiftory-server/internal/platform/httpserver/import_routes.go:444-493 | cancelling takes the specified step, repeats harmlessly, or is refused |
| `ImportHandlers.ImportStore.RetryImport` | shiftory-server/internal/platform/httpserver/ai_import_routes.go:226-286 | a retry takes the specified step or changes nothing, and each of its five refusals is given exactly when its condition holds and no earlier one does |
| `ImportHandlers.ImportStore.DispatchOne` | shiftory-server/internal/importjob/queue.go:128-161 | a due row ends delivered exactly when the dispatcher was told the queue has the task, otherwise due again; the generation counts as sent also when the answer was lost; a row not due is left alone |
| `ImportHandlers.RoundIsPositive` | shiftory-server/internal/importjob/queue.go:300-300 | an owner always has a round to give back, so the attempt count never goes below zero |
| `ImportSystem.TaskIDInjective` | shiftory-server/internal/importjob/queue.go:29-29 | the printed identity names one job and one generation |
| `ImportSystem.ConflictMeansSent` | shiftory-server/internal/importjob/queue.go:151-153 | an identity conflict can only mean the very job and generation being dispatched |
| `ImportSystem.StepKeepsInv` | shiftory-server/internal/importjob/queue.go:128-161 | every action of the whole system keeps all jobs and queue entries in order |
| `ImportSystem.ViewIsTrace` | shiftory-server/internal/importjob/queue.go:103-161 | seen from any one job, a run of the whole system is a run of the job protocol, so all its guarantees hold of every job |
| `ImportSystem.OutboxComplete` | shiftory-server/internal/platform/httpserver/ai_import_routes.go:188-211 | a job made by persistAI has exactly one outbox row per generation from 1 on, and a delivered row means its own message was sent |
| `ImportSystem.SentWasAccepted` | shiftory-server/internal/importjob/queue.go:150-154 | a generation counts as sent only after the queue took a message of that job and generation, whether or not the dispatcher learned of it |
| `ImportSystem.CreationIsIdempotent` | shiftory-server/internal/platform/httpserver/ai_import_routes.go:160-197 | repeating a creation finds the first job and changes nothing; another input or uploader under the key is refused |
| `ImportSystem.QueueStepIsReviewChange` | shiftory-server/internal/importjob/repository_postgres.go:59-66 | every step of the job protocol other than commit, rollback and lost anchors is to the ledger a change of an open job |
| `ImportSystem.CommitAgrees` | shiftory-server/internal/platform/httpserver/import_routes.go:1231-1334 | the ledger commits a job exactly when the state and version test of the protocol passes, the preview holds a trusted item and every item is fine, and all jobs are then as the protocol leaves them |
| `ImportSystem.RollbackAgrees` | shiftory-server/internal/platform/httpserver/import_routes.go:1345-1448 | the ledger rolls a job back exactly when the state test of the protocol passes and no day it wrote was written since |
| `ImportSystem.RollbackIsUnanchoring` | shiftory-server/internal/platform/database/models.go:276-276 | to the protocol a ledger rollback is, on every job, one loss of anchors per deleted row, followed on its own job by the rollback step |
| `ImportWorld.LedgerSide` | shiftory-server/internal/importjob/repository_postgres.go:16-77 | to the ledger every step of the queue's side is a change of an open job, or nothing |
| `ImportWorld.QueueSide` | shiftory-server/internal/platform/database/models.go:276-276 | to every job each ledger transaction is a list of steps of its protocol, and a queue step at most the one event it carries |
| `ImportWorldRuns.WorldAlways` | shiftory-server/internal/platform/httpserver/import_routes.go:1210-1460 | over every run of queue and ledger together both invariants hold and both sides agree on all jobs and items |
| `ImportWorldRuns.LedgerView` | shiftory-server/internal/platform/httpserver/import_routes.go:1210-1460 | the tables of a combined run go through a run of the ledger, so all its guarantees hold |
| `ImportWorldRuns.QueueView` | shiftory-server/internal/importjob/queue.go:103-161 | seen from one job a combined run is a run of the job protocol that passes through all its states, so all its guarantees hold |
| `ImportWorldRuns.PreviewIsFenced` | shiftory-server/internal/importjob/repository_postgres.go:28-76 | from its claim to the write that puts the job under review a worker held the job alone, whatever the ledger and all others did in between |
| `ImportWorldRuns.ShownIsCommitted` | shiftory-server/internal/platform/httpserver/import_routes.go:1244-1334 | end to end, by the fields of the item shown: a commit naming the version meets the day the preview compared it with exactly unless the anchor was lost, writes the draft of a NEW or CONFLICT item with nothing decided or USE_IMPORTED, leaves the day as it is for every other item, and completes the job |
| `ImportWorldRuns.CommittedForGood` | shiftory-server/internal/importjob/repository_postgres.go:28-34 | after a commit a job is completed or rolled back for ever, and no worker, message, clean-up or edit touches its state, items or version |
| `Preview.CoveringIsOnePerDate` | shiftory-server/internal/platform/database/models.go:263-264 | items covering a period in order never repeat a date, as the unique index demands |
| `ImagePreview.MapSegments` | shiftory-server/internal/importjob/image_processor.go:350-365 | the mapping loop yields the specified segments and exactly the specified mapping issues |
| `ImagePreview.ConvertEntry` | shiftory-server/internal/importjob/image_processor.go:347-391 | snapshot and issues are exactly the specified ones; an issue for the day arises exactly from a validation error other than the missing shift snapshot |
| `ImagePreview.BuildItems` | shiftory-server/internal/importjob/image_processor.go:186-263 | the preview has exactly one item per date of the period, in order, each as specified and described by `PreviewMeaning.ImageItemMeaning`, with conflict and invalid counts equal to the items of those types; it is refused exactly for a period that is unreadable, inverted or longer than 366 days |
| `PreviewMeaning.ImageItemMeaning` | shiftory-server/internal/importjob/image_processor.go:215-263 | the type of a model's item by the fields of draft and stored day: MISSING without an entry, INVALID for an issue on the day, UNCERTAIN for any other doubt, NEW without a stored day, SAME when status, trimmed note and segments agree, CONFLICT otherwise, with the anchors of the stored day |
| `PreviewMeaning.SnapshotMeaning` | shiftory-server/internal/importjob/image_processor.go:347-367 | what a model's entry becomes: its status word, its trimmed note, and each segment converted in order |
| `PreviewMeaning.IssuesMeaning` | shiftory-server/internal/importjob/image_processor.go:347-391 | an entry raises no issue exactly when its shifts are known, its times are clocks and its day is valid or lacks only a shift snapshot, and an issue on the day exactly when the day is invalid otherwise |
| `PreviewMeaning.ConvertMeaning` | shiftory-server/internal/importjob/image_processor.go:350-363 | a SHIFT takes identity, name, code, times and mark from the shift found by its code or else by its label, both trimmed and folded; any other segment keeps its own times |
| `ImagePreview.NoIssuesMeans` | shiftory-server/internal/importjob/image_processor.go:347-391 | an entry without issues has every shift mapped, every clock parsed, and a day that is valid or lacks only a shift snapshot |
| `ImagePreview.TrustedItemsCommit` | shiftory-server/internal/importjob/image_processor.go:387-389 | an item typed NEW, SAME or CONFLICT is accepted when the commit rebuilds it exactly when all its shifts have names that are not blank |
| `ImagePreview.BlankNameRejected` | shiftory-server/internal/importjob/image_processor.go:387-389 | a blank shift name makes the rebuilt day invalid, whatever else it holds |
| `ImagePreview.NamedShiftsCommit` | shiftory-server/internal/importjob/image_processor.go:347-391 | when every shift of the mapping has a name that is not blank, every item typed NEW, SAME or CONFLICT is accepted when the commit rebuilds it |
| `SheetPreview.ParseDateCell` | shiftory-server/internal/importer/normalize.go:144-154 | an accepted date cell yields a canonical date; which cells those are is `PreviewMeaning.DateCellMeaning` |
| `SheetPreview.MergeRows` | shiftory-server/internal/importer/normalize.go:53-118 | the row loop computes the specified merge; the first failing row decides |
| `SheetPreview.ValidateEntries` | shiftory-server/internal/importer/normalize.go:119-130 | all merged days are valid or the sheet is refused, whatever order the map yields, and the result is in date order |
| `SheetPreview.Normalize` | shiftory-server/internal/importer/normalize.go:37-131 | a sheet is accepted exactly when headers, rows and every merged day are fine, and the result holds exactly the merged days, ascending and valid; headers are looked at first, then the rows, then the days, and each refusal names the row it is about |
| `SheetPreview.MergedMeans` | shiftory-server/internal/importer/normalize.go:54-106 | a date has an entry exactly when some row speaks of it, and it is uncertain exactly when one of its rows names an unknown shift |
| `SheetPreview.BuildSheetItems` | shiftory-server/internal/platform/httpserver/import_routes.go:96-268 | the period is refused exactly when unreadable, inverted or longer than 366 days, a date outside it is refused next, and otherwise there is one item per date in order, described by `PreviewMeaning.SheetItemMeaning`, with counts equal to the items of their types |
| `PreviewMeaning.SheetItemMeaning` | shiftory-server/internal/platform/httpserver/import_routes.go:225-256 | the type of a workbook's item by the fields of entry and stored day; its draft is the snapshot of the merged day |
| `PreviewMeaning.HeaderMeaning` | shiftory-server/internal/importer/normalize.go:37-47 | a sheet has the template's seven headers, in order |
| `PreviewMeaning.DateCellMeaning` | shiftory-server/internal/importer/normalize.go:144-154 | a date cell is read exactly when it is the canonical text with its dashes as they are, or both slashes, or both dots |
| `PreviewMeaning.CellMeaning` | shiftory-server/internal/importer/normalize.go:134-141 | a row is skipped exactly when no cell holds anything but white space, and a cell is read trimmed |
| `PreviewMeaning.StatusMeaning` | shiftory-server/internal/importer/normalize.go:157-167 | the words for each status |
| `PreviewMeaning.CrossDayMeaning` | shiftory-server/internal/importer/normalize.go:169-179 | the words for crossing midnight and against it, an empty cell being against |
| `PreviewMeaning.RowMeaning` | shiftory-server/internal/importer/normalize.go:77-117 | what one row adds: the segment of its shift or of its times with exactly those values, doubt for an unknown shift, or nothing; and the condition behind each refusal |
| `PreviewMeaning.MergeMeaning` | shiftory-server/internal/importer/normalize.go:64-117 | a row opens its day or continues it with the same status and no other note, adds its segment behind the others, and changes no other day |
| `PreviewMeaning.RefusalMeaning` | shiftory-server/internal/importer/normalize.go:58-117 | why a row is refused: an unreadable date, then an unknown status, then another status or note than its day has, then the error of what it adds |
| `PreviewMeaning.FirstRefusal` | shiftory-server/internal/importer/normalize.go:54-117 | the first row refused beside those before it decides the error, under its number in the sheet |
| `SheetPreview.SheetItemsCommit` | shiftory-server/internal/platform/httpserver/import_routes.go:239-256 | whatever a workbook previews as NEW, SAME or CONFLICT is accepted when the commit rebuilds it |
| `ProviderSlots.SlotsBounded` | shiftory-server/internal/ai/recognizer.go:196-223 | in every interleaving with expiry and crashes, unexpired grants never exceed the concurrency limit and at most one of them was made while probing |
| `ProviderSlots.OneProbeAtATime` | shiftory-server/internal/ai/recognizer.go:206-206 | for as long as a provider must be probed, at most one grant made since is alive |
| `ProviderSlots.StepKeepsInv` | shiftory-server/internal/ai/recognizer.go:196-240 | every script keeps the slot invariant |
| `ProviderSlots.TimeKeepsInv` | shiftory-server/internal/ai/recognizer.go:204-207 | the passing of time keeps the slot invariant, including the expiry of the whole set |
| `ProviderSlots.AskMeaning` | shiftory-server/internal/ai/recognizer.go:201-207 | each answer by the keys: an unusable provider, one inside its cool-down, one with all slots unexpired or with another's probe running, and a grant otherwise |
| `ProviderSlots.TakeMeaning` | shiftory-server/internal/ai/recognizer.go:204-207 | a granted slot, and the probe that comes with it, lapse exactly the given time from now; without a grant nobody gets anything |
| `ProviderSlots.FailuresAddUp` | shiftory-server/internal/ai/recognizer.go:235-239 | failures that follow each other within twice their pause are counted together, and from the threshold on each starts a cool-down and calls for a probe |
| `ProviderSlots.ThresholdCools` | shiftory-server/internal/ai/recognizer.go:203-239 | a usable provider is refused as cooling for exactly the pause after the failure that reached the threshold, and below the threshold failures change no answer |
| `ProviderSlots.SuccessRestores` | shiftory-server/internal/ai/recognizer.go:226-234 | a success forgets failures, cool-down and probe; refused content counts neither way |
| `ProviderSlots.UnusableForGood` | shiftory-server/internal/ai/recognizer.go:202-231 | a provider found unusable is never granted again in any run |
| `ProviderRouting.ProviderKeys.Acquire` | shiftory-server/internal/ai/recognizer.go:201-209 | the script answers and changes the keys exactly as specified |
| `ProviderRouting.ProviderKeys.Release` | shiftory-server/internal/ai/recognizer.go:210-215 | releasing drops the slot and the probe only if it is still the caller's |
| `ProviderRouting.ProviderKeys.RecordHealth` | shiftory-server/internal/ai/recognizer.go:224-240 | the outcome of a call changes failures, cool-down and probing exactly as specified |
| `ProviderRouting.Router.Try` | shiftory-server/internal/ai/recognizer.go:95-181 | on every path the slot is released, and the provider was called only under it |
| `ProviderRouting.Router.Route` | shiftory-server/internal/ai/recognizer.go:80-194 | every exit has released each slot; calls are those of the providers passed, in order; the draft is that of the first provider whose output validated; an exhausted round reports last error, retryability and earliest time |
| `ProviderRouting.CallsAscend` | shiftory-server/internal/ai/recognizer.go:87-123 | calls go through the providers in order, so none is called twice in a round |
| `ProviderRouting.VerdictByFields` | shiftory-server/internal/ai/recognizer.go:88-181 | when a provider is called, when its draft is the answer and when the loop goes on, by what it and the stores around it answered |
| `RollingLog.NewRollingWriter` | shiftory-server/internal/platform/logging/rolling.go:26-77 | invalid settings are refused untouched; after construction exactly the backups within both limits remain and the total is bounded |
| `RollingLog.RollingWriter.Write` | shiftory-server/internal/platform/logging/rolling.go:94-122 | a record that fits is appended and no backup is touched, otherwise every file moves one number up and the record starts the current file; only a record larger than a file is refused for its size; after every write, failed or not, total bytes are at most the file limit times one more than the backups, and while nothing failed the kept text is a contiguous end of what was found and accepted |
| `RollingLog.RollingWriter.Rotate` | shiftory-server/internal/platform/logging/rolling.go:124-149 | a successful rotation leaves an empty current file, every other text one number up, and drops nothing but the oldest backup |
| `RollingLog.RollingWriter.MoveBackups` | shiftory-server/internal/platform/logging/rolling.go:140-144 | every backup moves one number up, each onto a number just vacated, so no rename overwrites a file |
| `RollingLog.RollingWriter.Emit` | shiftory-server/internal/platform/logging/rolling.go:112-121 | a full write is appended; a partial one stops the writer within the bound even if truncation fails |
| `RollingLog.WithinBoundsTotal` | shiftory-server/internal/platform/logging/rolling.go:94-122 | files within both limits are within the total bound |
| `RollingLog.ShiftedIsSuffix` | shiftory-server/internal/platform/logging/rolling.go:137-148 | shifting all files one number up keeps a contiguous end of the text |
| `RefreshTokens.OneHeadPerFamily` | shiftory-server/internal/auth/repository_postgres.go:110-158 | in every interleaving a family has at most one token that is unused or being replaced |
| `RefreshTokens.OneRotationPerToken` | shiftory-server/internal/auth/repository_postgres.go:120-144 | however many requests present one token, at most one rotation of it succeeds |
| `RefreshTokens.VerdictByFields` | shiftory-server/internal/auth/repository_postgres.go:120-140 | a token is refused as revoked exactly when it is missing, revoked or past its expiry, and accepted exactly when none of that holds and it was not used |
| `RefreshTokens.RefusedForGood` | shiftory-server/internal/auth/repository_postgres.go:120-140 | in every run a token that has expired or was revoked is refused at all later times, and a used one is a replay until then |
| `RefreshTokens.RevocationIsFinal` | shiftory-server/internal/auth/repository_postgres.go:161-168 | revoking a family ends it for good exactly when no rotation of it is under way; otherwise some continuation accepts a token of the family again |
| `RefreshTokens.InFlightSurvives` | shiftory-server/internal/auth/service.go:112-130 | the continuation that shows it: the rotation stores its token after the revocation and the token is accepted |
| `RefreshTokens.DeadForGood` | shiftory-server/internal/auth/repository_postgres.go:161-168 | a revoked family with nothing under way stays revoked in every run |
| `RefreshTokens.AuthService.ConsumeRefresh` | shiftory-server/internal/auth/repository_postgres.go:110-158 | the row decides between acceptance, replay and revocation, and only acceptance changes it |
| `RefreshTokens.AuthService.Refresh` | shiftory-server/internal/auth/service.go:101-131 | a pair only for an accepted token of an active user, and then the old token is used and the new one, stored in the same family with the expiry asked for, unused; a replay or a disabled user leaves the family revoked |
| `RefreshTokens.AuthService.LogIn` | shiftory-server/internal/auth/service.go:77-98 | a login stores its token with the expiry asked for as the one usable token of a fresh family, accepted until it expires, and leaves every other token as it was |
| `RefreshTokens.AuthService.LogOut` | shiftory-server/internal/auth/service.go:134-141 | after a logout every stored token of the family is refused as revoked at all later times, and every other token is as it was |
| `Orientation.PlaceMeetsStandard` | shiftory-server/internal/importer/imageai/image.go:36-52 | the switch puts every pixel where section 8 of TIFF 6.0 and section 4.6.4 of Exif 2.3 put it |
| `Orientation.PlaceIsOneToOne` | shiftory-server/internal/importer/imageai/image.go:36-52 | every pixel has its own place inside the target; 6 and 8 undo each other, the others themselves |
| `Orientation.PaintUpright` | shiftory-server/internal/importer/imageai/image.go:27-55 | the pixel loop writes every target pixel exactly once, with the right source pixel |
| `Orientation.TurnedBack` | shiftory-server/internal/importer/imageai/image.go:27-55 | turning an image and then turning it back gives the image |
| `ExifReader.JpegOrientation` | shiftory-server/internal/importer/imageai/image.go:62-113 | the parser terminates on any bytes, never reads outside them, returns 1 to 8, and agrees with the reading defined on segments and entries |
| `ExifReader.ScanEntries` | shiftory-server/internal/importer/imageai/image.go:97-110 | the entry loop agrees with the first-match reading of the directory |
| `ExifReader.OrientationRoundTrip` | shiftory-server/internal/importer/imageai/image.go:62-113 | an orientation written into a header, byte for byte as the Exif standard has it, is read back, for both byte orders and any other segments, entries and trailing bytes; a value other than 1 to 8 is read as upright |
| `ExifReader.NoOrientation` | shiftory-server/internal/importer/imageai/image.go:62-90 | data that is no JPEG is upright, and so is an image whose segments before the image data, the end or something that is no segment say nothing about orientation |

## Left out

- SQL, Redis, asynq, HTTP, JSON, PNG and JPEG decoding, file storage, prompts and model SDK calls: mechanics around the
  modelled decisions; their failures appear as refused or missing steps.
- Authorization, workspace membership, invitations, preferences, audit rows, metrics, password hashing, JWT signing: not
  part of the protocols.
- `refreshPreview`: it reads an undecided item as an empty text and writes it back, which the check constraint on
  decisions rejects; "no decision" is an absent value here.
- Deleting workspaces, shifts and import jobs: the foreign keys would be set to NULL without a version change. The
  shifts a ledger knows and its jobs stay for the whole run.
- Personal days without a workspace: the workspace column plays no part in the keys of days and is dropped.
- Segment row identities: a day's content is compared without them.
- `write_count`, item counters on the job row, stage names, error texts, heartbeat and retry times: they guard no step.
- Notes of merged workbook rows: a note on a later row is dropped when the first row had none, so nothing is claimed
  about them beyond the merge itself.
- Colliding aliases in a workbook's mapping: the program keeps whichever the map yields last; here the mapping arrives
  already indexed.
- Unusable segments of a batch (INVALID_SEGMENT): segments arrive prepared, as in a single save.
- Decoding and normalising a model's JSON (`DecodeDraft`, `normalizeProviderPayload`, `DecodeRules`): drafts and rule
  sets arrive decoded.
- Choosing which due outbox row or which 50 jobs to look at first: dispatching and reconciling take them as given.
- Backup files that are not regular, and names that are not canonical numbers, in the log directory: the former refuse
  construction, the latter are ignored by the program.
- Retry delays, and the totals a calendar view shows: no decision of the modelled protocols depends on them.
- File operations that half succeed: in the log directory an operation fails without effect or takes effect whole, except
  that a failing write may leave any part of its data behind.
- The stores behind a routing round: their answers are inputs of the round; the slots they stand for are those of
  `ProviderSlots`.
- RefreshTokens.AuthService.Refresh: its statements run back to back, so no other request comes between them, because a
  method is one run of one request; `ConsumeRefresh`, `StoreRefresh` and `RevokeAll` are the single statements, and the
  runs in `RefreshTokens` interleave them.
