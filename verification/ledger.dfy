/** The versioned schedule ledger: its rows, its revisions, and the four transactions that
    write them. */
module Ledger {
  import opened Common
  import opened Calendar
  import opened DateOrder
  import opened Text
  import opened ScheduleDomain
  import opened Snapshots
  import opened Review

  /** uq_schedule_day_user_date. */
  datatype Key = Key(user: nat, date: string)

  datatype Row = Row(id: nat, version: nat, createdBy: nat, content: Content)

  datatype Change =
    | ManualCreate | ManualUpdate | BatchCreate | BatchUpdate | ImportCreate | ImportUpdate
    | RollbackDelete | RollbackRestore

  datatype Revision = Revision(
    dayId: Option<nat>, user: nat, date: string, beforeVersion: Option<nat>, afterVersion: Option<nat>,
    before: Option<StoredSchedule>, after: Option<StoredSchedule>, change: Change, job: Option<nat>, changedBy: nat)

  datatype Db = Db(
    days: map<Key, Row>, revisions: seq<Revision>, jobs: map<nat, ReviewJob>, shifts: set<nat>, nextRow: nat)

  datatype LedgerError =
    | InvalidSchedule(error: ScheduleError) | VersionConflict | UnknownShift | InvalidBatch | InvalidBatchDate
    | JobNotFound | NotCommittable | StaleVersion | NoTrustedResult | UnresolvedConflicts | StalePreview
    | NotRollbackable | RollbackConflict

  // ----- writing one row

  /** A segment keeps its shift reference only while the shift exists. */
  function KeepShift(s: Segment, shifts: set<nat>): Segment {
    if s.shiftId.Some? && s.shiftId.value !in shifts then s.(shiftId := None) else s
  }

  function KeepShifts(segments: seq<Segment>, shifts: set<nat>): (r: seq<Segment>)
    ensures |r| == |segments| && forall i :: 0 <= i < |r| ==> r[i] == KeepShift(segments[i], shifts)
  {
    if segments == [] then []
    else KeepShifts(segments[..|segments| - 1], shifts) + [KeepShift(segments[|segments| - 1], shifts)]
  }

  /** The foreign keys writeScheduleTx drops: a source import or a shift that is gone. */
  function KeepReferences(db: Db, c: Content): Content {
    c.(sourceImportId := if c.sourceImportId.Some? && c.sourceImportId.value !in db.jobs then None
                         else c.sourceImportId,
       segments := KeepShifts(c.segments, db.shifts))
  }

  function RowAfterWrite(db: Db, key: Key, day: Day): Row {
    var content := ReadBack(KeepReferences(db, day.content));
    if key in db.days then
      // The UPDATE leaves created_by alone.
      Row(db.days[key].id, db.days[key].version + 1, db.days[key].createdBy, content)
    else Row(db.nextRow, 1, day.createdBy, content)
  }

  /** writeScheduleTx: replace the row of this user and date, or insert a new one. */
  function WriteDay(db: Db, key: Key, day: Day): Db {
    db.(days := db.days[key := RowAfterWrite(db, key, day)],
        nextRow := if key in db.days then db.nextRow else db.nextRow + 1)
  }

  function DayOf(row: Row): Day {
    Day(row.content, row.createdBy)
  }

  function BeforeVersion(db: Db, key: Key): Option<nat> {
    if key in db.days then Some(db.days[key].version) else None
  }

  function BeforeSnapshot(db: Db, key: Key): Option<StoredSchedule>
    requires RowsRenderable(db)
  {
    if key in db.days then Some(StoredFromDay(DayOf(db.days[key]))) else None
  }

  /** Every stored row can be turned into a snapshot. */
  ghost predicate RowsRenderable(db: Db) {
    forall k :: k in db.days ==> StartsHaveEnds(db.days[k].content.segments)
  }

  lemma KeepShiftsKeepsEnds(segments: seq<Segment>, shifts: set<nat>)
    requires StartsHaveEnds(segments)
    ensures StartsHaveEnds(KeepShifts(segments, shifts))
  {
    forall i | 0 <= i < |segments| ensures StartHasEnd(KeepShifts(segments, shifts)[i]) {
      assert StartHasEnd(segments[i]);
    }
  }

  /** The revision of a write, with the snapshots on both sides. The snapshot of the new day
      carries the writer as its creator. */
  function PutRecord(db: Db, key: Key, day: Day, change: Change, job: Option<nat>, actor: nat): Revision
    requires RowsRenderable(db) && StartsHaveEnds(day.content.segments)
  {
    KeepShiftsKeepsEnds(day.content.segments, db.shifts);
    var row := RowAfterWrite(db, key, day);
    Revision(Some(row.id), key.user, key.date, BeforeVersion(db, key), Some(row.version), BeforeSnapshot(db, key),
             Some(StoredFromDay(day.(content := KeepReferences(db, day.content)))), change, job, actor)
  }

  /** Write a day and record it. */
  function Put(db: Db, key: Key, day: Day, change: Change, job: Option<nat>, actor: nat): Db
    requires RowsRenderable(db) && StartsHaveEnds(day.content.segments)
  {
    WriteDay(db, key, day).(revisions := db.revisions + [PutRecord(db, key, day, change, job, actor)])
  }

  lemma PutKeepsRenderable(db: Db, key: Key, day: Day, change: Change, job: Option<nat>, actor: nat)
    requires RowsRenderable(db) && StartsHaveEnds(day.content.segments)
    ensures RowsRenderable(Put(db, key, day, change, job, actor))
  {
    KeepShiftsKeepsEnds(day.content.segments, db.shifts);
    ReadBackIsCanonical(KeepReferences(db, day.content));
    ReadBackFixesCanonical(ReadBack(KeepReferences(db, day.content)));
  }

  // ----- saveSchedule

  function ShiftsKnown(db: Db, segments: seq<Segment>): bool {
    forall i :: 0 <= i < |segments| && segments[i].shiftId.Some? ==> segments[i].shiftId.value in db.shifts
  }

  /** A day that passed Day.Validate has an end for every start. */
  lemma ValidDayRenderable(date: string, status: Status, segments: seq<Segment>)
    requires DayError(date, status, segments).None?
    ensures StartsHaveEnds(segments)
  {
    NoSegmentError(segments);
    forall i | 0 <= i < |segments| ensures StartHasEnd(segments[i]) {
      assert segments[i] in segments;
    }
  }

  /** upsertSchedule with saveSchedule: version 0 creates, the row's own version updates. */
  ghost function Save(db: Db, key: Key, status: Status, note: string, segments: seq<Segment>, version: nat, actor: nat)
    : Result<Db, LedgerError>
    requires RowsRenderable(db)
  {
    var error := DayError(key.date, status, segments);
    if error.Some? then Err(InvalidSchedule(error.value))
    else if key !in db.days && version != 0 then Err(VersionConflict)
    else if key in db.days && (version == 0 || version != db.days[key].version) then Err(VersionConflict)
    else if !ShiftsKnown(db, segments) then Err(UnknownShift)
    else
      ValidDayRenderable(key.date, status, segments);
      Ok(Put(db, key, Day(Content(status, Manual, None, TrimSpace(note), segments), actor),
             if key in db.days then ManualUpdate else ManualCreate, None, actor))
  }

  // ----- batchSchedules

  ghost function PutAll(db: Db, user: nat, dates: seq<string>, day: Day, actor: nat): Db
    requires RowsRenderable(db) && StartsHaveEnds(day.content.segments)
    decreases |dates|
  {
    if dates == [] then db
    else
      var key := Key(user, dates[0]);
      var change := if key in db.days then BatchUpdate else BatchCreate;
      PutKeepsRenderable(db, key, day, change, None, actor);
      PutAll(Put(db, key, day, change, None, actor), user, dates[1..], day, actor)
  }

  /** What is wrong with the i-th date of a batch: unreadable or repeated, then invalid. */
  ghost function DateError(dates: seq<string>, i: nat, status: Status, segments: seq<Segment>): Option<LedgerError>
    requires i < |dates|
  {
    if ParseDate(dates[i]).None? || dates[i] in dates[..i] then Some(InvalidBatchDate)
    else match DayError(dates[i], status, segments)
      case Some(e) => Some(InvalidSchedule(e))
      case None => None
  }

  /** The first error among the first n dates. */
  ghost function BatchError(dates: seq<string>, n: nat, status: Status, segments: seq<Segment>): Option<LedgerError>
    requires n <= |dates|
  {
    if n == 0 then None
    else if BatchError(dates, n - 1, status, segments).Some? then BatchError(dates, n - 1, status, segments)
    else DateError(dates, n - 1, status, segments)
  }

  lemma {:induction false} BatchErrorMeaning(dates: seq<string>, n: nat, status: Status, segments: seq<Segment>)
    requires n <= |dates|
    ensures BatchError(dates, n, status, segments).None? <==>
            forall k :: 0 <= k < n ==> DateError(dates, k, status, segments).None?
    ensures BatchError(dates, n, status, segments).Some? ==>
              exists k: nat :: k < n && DateError(dates, k, status, segments) == BatchError(dates, n, status, segments)
                               && forall m :: 0 <= m < k ==> DateError(dates, m, status, segments).None?
  {
    hide DateError;
    if n > 0 {
      BatchErrorMeaning(dates, n - 1, status, segments);
    }
  }

  lemma FineDatesRenderable(dates: seq<string>, status: Status, segments: seq<Segment>)
    requires |dates| > 0 && BatchError(dates, |dates|, status, segments).None?
    ensures StartsHaveEnds(segments)
  {
    hide DayError;
    BatchErrorMeaning(dates, |dates|, status, segments);
    assert DateError(dates, 0, status, segments).None?;
    ValidDayRenderable(dates[0], status, segments);
  }

  /** All dates are validated first, then all are written in one transaction; the client
      sends no version. */
  ghost function Batch(db: Db, user: nat, dates: seq<string>, status: Status, note: string, segments: seq<Segment>,
      actor: nat)
    : Result<Db, LedgerError>
    requires RowsRenderable(db)
  {
    if |dates| == 0 || |dates| > 366 then Err(InvalidBatch)
    else if BatchError(dates, |dates|, status, segments).Some? then
      Err(BatchError(dates, |dates|, status, segments).value)
    else
      FineDatesRenderable(dates, status, segments);
      Ok(PutAll(db, user, dates, Day(Content(status, Manual, None, note, segments), actor), actor))
  }

  // ----- commitImport

  predicate Trusted(item: Item) {
    item.kind in {Same, New, Conflict} || item.decision == Some(Skip)
  }

  /** The item reaches the anchor check. */
  predicate Selected(item: Item) {
    item.kind in {New, Same, Conflict} && item.decision != Some(Skip) && item.draft.Some?
  }

  /** The item is written to the ledger. */
  predicate Written(item: Item) {
    Selected(item) && item.kind != Same && item.decision != Some(KeepExisting)
  }

  predicate AnchorHolds(db: Db, key: Key, item: Item) {
    if item.anchorId.None? then key !in db.days
    else key in db.days && db.days[key].id == item.anchorId.value && item.anchorVersion == Some(db.days[key].version)
  }

  function ImportedDay(job: ReviewJob, jobId: nat, item: Item, actor: nat): (day: Day)
    requires item.draft.Some?
    ensures StartsHaveEnds(day.content.segments)
  {
    var day := DayFromStored(item.draft.value);
    Day(day.content.(sourceType := job.source, sourceImportId := Some(jobId)), actor)
  }

  ghost function CommitItem(db: Db, job: ReviewJob, jobId: nat, item: Item, actor: nat): Result<Db, LedgerError>
    requires RowsRenderable(db)
  {
    var key := Key(job.target, item.date);
    if item.kind == Conflict && item.decision.None? then Err(UnresolvedConflicts)
    else if !Selected(item) then Ok(db)
    else if !AnchorHolds(db, key, item) then Err(StalePreview)
    else if !Written(item) then Ok(db)
    else
      var day := ImportedDay(job, jobId, item, actor);
      var error := DayError(item.date, day.content.status, day.content.segments);
      if error.Some? then Err(InvalidSchedule(error.value))
      else Ok(Put(db, key, day, if key in db.days then ImportUpdate else ImportCreate, Some(jobId), actor))
  }

  lemma CommitItemKeepsRenderable(db: Db, job: ReviewJob, jobId: nat, item: Item, actor: nat)
    requires RowsRenderable(db) && CommitItem(db, job, jobId, item, actor).Ok?
    ensures RowsRenderable(CommitItem(db, job, jobId, item, actor).value)
  {
    var key := Key(job.target, item.date);
    if Written(item) {
      PutKeepsRenderable(db, key, ImportedDay(job, jobId, item, actor),
                         if key in db.days then ImportUpdate else ImportCreate, Some(jobId), actor);
    }
  }

  ghost function CommitItems(db: Db, job: ReviewJob, jobId: nat, items: seq<Item>, actor: nat): Result<Db, LedgerError>
    requires RowsRenderable(db)
    decreases |items|
  {
    if items == [] then Ok(db)
    else match CommitItem(db, job, jobId, items[0], actor)
      case Err(e) => Err(e)
      case Ok(next) =>
        CommitItemKeepsRenderable(db, job, jobId, items[0], actor);
        CommitItems(next, job, jobId, items[1..], actor)
  }

  function ItemDate(item: Item): string {
    item.date
  }

  function RevisionDate(r: Revision): string {
    r.date
  }

  predicate AnyTrusted(items: seq<Item>) {
    exists i :: 0 <= i < |items| && Trusted(items[i])
  }

  /** commitImport. A completed job is left alone; any failing item undoes the whole. */
  ghost function Commit(db: Db, jobId: nat, expected: nat, actor: nat): Result<Db, LedgerError>
    requires RowsRenderable(db)
  {
    if jobId !in db.jobs then Err(JobNotFound)
    else
      var job := db.jobs[jobId];
      if job.state == Completed then Ok(db)
      else if job.state != NeedsReview then Err(NotCommittable)
      else if !NamesVersion(job, expected) then Err(StaleVersion)
      else if !AnyTrusted(job.items) then Err(NoTrustedResult)
      else match CommitItems(db, job, jobId, ByDate(job.items, ItemDate), actor)
        case Err(e) => Err(e)
        case Ok(next) => Ok(next.(jobs := next.jobs[jobId := job.(state := Completed)]))
  }

  // ----- rollbackImport

  predicate IsImportWrite(r: Revision) {
    r.change in {ImportCreate, ImportUpdate}
  }

  function WritesOf(revisions: seq<Revision>, jobId: nat): seq<Revision> {
    if revisions == [] then []
    else
      var init, last := revisions[..|revisions| - 1], revisions[|revisions| - 1];
      WritesOf(init, jobId) + if last.job == Some(jobId) && IsImportWrite(last) then [last] else []
  }

  /** The check made before a day is undone: same version, same source import. */
  predicate StillOwned(db: Db, key: Key, r: Revision, jobId: nat) {
    key in db.days && r.afterVersion == Some(db.days[key].version)
    && db.days[key].content.sourceImportId == Some(jobId)
  }

  function Detach(revisions: seq<Revision>, rowId: nat): (s: seq<Revision>)
    ensures |s| == |revisions|
    ensures forall i :: 0 <= i < |s| ==>
              s[i] == if revisions[i].dayId == Some(rowId) then revisions[i].(dayId := None) else revisions[i]
  {
    if revisions == [] then []
    else Detach(revisions[..|revisions| - 1], rowId)
         + [var last := revisions[|revisions| - 1]; if last.dayId == Some(rowId) then last.(dayId := None) else last]
  }

  /** DELETE FROM schedule_days: segments go with the row, and the ON DELETE SET NULL keys
      of revisions and preview items lose it. */
  function DropDay(db: Db, key: Key): Db
    requires key in db.days
  {
    var id := db.days[key].id;
    db.(days := db.days - {key},
        revisions := Detach(db.revisions, id),
        jobs := map j | j in db.jobs :: db.jobs[j].(items := Unanchor(db.jobs[j].items, id)))
  }

  /** writeScheduleTx clears missing shifts in the slice its caller still holds, but the
      source import only in its own copy. */
  function RestoredSnapshot(db: Db, day: Day): StoredSchedule
    requires StartsHaveEnds(day.content.segments)
  {
    KeepShiftsKeepsEnds(day.content.segments, db.shifts);
    StoredFromDay(day.(content := day.content.(segments := KeepShifts(day.content.segments, db.shifts))))
  }

  ghost function RollbackItem(db: Db, user: nat, jobId: nat, r: Revision, actor: nat): Result<Db, LedgerError>
    requires RowsRenderable(db)
  {
    var key := Key(user, r.date);
    if !StillOwned(db, key, r, jobId) then Err(RollbackConflict)
    else
      var version := db.days[key].version;
      if r.before.None? then
        var dropped := DropDay(db, key);
        Ok(dropped.(revisions := dropped.revisions + [Revision(
             None, user, r.date, Some(version), None, r.after, None, RollbackDelete, Some(jobId), actor)]))
      else
        var restored := DayFromStored(r.before.value);
        var written := WriteDay(db, key, restored);
        Ok(written.(revisions := db.revisions + [Revision(
             Some(db.days[key].id), user, r.date, Some(version), Some(version + 1), r.after,
             Some(RestoredSnapshot(db, restored)), RollbackRestore, Some(jobId), actor)]))
  }

  lemma RollbackItemKeepsRenderable(db: Db, user: nat, jobId: nat, r: Revision, actor: nat)
    requires RowsRenderable(db) && RollbackItem(db, user, jobId, r, actor).Ok?
    ensures RowsRenderable(RollbackItem(db, user, jobId, r, actor).value)
  {
    if r.before.Some? {
      var restored := DayFromStored(r.before.value);
      KeepShiftsKeepsEnds(restored.content.segments, db.shifts);
      ReadBackIsCanonical(KeepReferences(db, restored.content));
      ReadBackFixesCanonical(ReadBack(KeepReferences(db, restored.content)));
    }
  }

  ghost function RollbackAll(db: Db, user: nat, jobId: nat, writes: seq<Revision>, actor: nat): Result<Db, LedgerError>
    requires RowsRenderable(db)
    decreases |writes|
  {
    if writes == [] then Ok(db)
    else match RollbackItem(db, user, jobId, writes[0], actor)
      case Err(e) => Err(e)
      case Ok(next) =>
        RollbackItemKeepsRenderable(db, user, jobId, writes[0], actor);
        RollbackAll(next, user, jobId, writes[1..], actor)
  }

  /** rollbackImport: every day the job wrote is undone, or none is. */
  ghost function Rollback(db: Db, jobId: nat, actor: nat): Result<Db, LedgerError>
    requires RowsRenderable(db)
  {
    if jobId !in db.jobs then Err(JobNotFound)
    else
      var job := db.jobs[jobId];
      if job.state == RolledBack then Ok(db)
      else if job.state != Completed then Err(NotRollbackable)
      else match RollbackAll(db, job.target, jobId, ByDate(WritesOf(db.revisions, jobId), RevisionDate), actor)
        case Err(e) => Err(e)
        case Ok(next) =>
          if jobId in next.jobs then Ok(next.(jobs := next.jobs[jobId := next.jobs[jobId].(state := RolledBack)]))
          else Err(JobNotFound)
  }
}
