/** The handlers as the program runs them: tables updated in place, loops that stop at the
    first failing day, and a transaction that puts the tables back when one does. */
module LedgerHandlers {
  import opened Common
  import opened Calendar
  import opened DateOrder
  import opened Text
  import opened ScheduleDomain
  import opened Snapshots
  import opened Review
  import opened Ledger

  class LedgerStore {
    var days: map<Key, Row>
    var revisions: seq<Revision>
    var jobs: map<nat, ReviewJob>
    var shifts: set<nat>
    var nextRow: nat

    constructor (shifts: set<nat>)
      ensures Now() == Db(map[], [], map[], shifts, 0)
    {
      days, revisions, jobs, nextRow := map[], [], map[], 0;
      this.shifts := shifts;
    }

    function Now(): Db
      reads this
    {
      Db(days, revisions, jobs, shifts, nextRow)
    }

    ghost predicate Valid()
      reads this
    {
      RowsRenderable(Now())
    }

    /** ROLLBACK. */
    method Restore(saved: Db)
      requires saved.shifts == shifts
      modifies this
      ensures Now() == saved
    {
      days, revisions, jobs, nextRow := saved.days, saved.revisions, saved.jobs, saved.nextRow;
    }

    /** The shift lookups of writeScheduleTx, one segment at a time. */
    method DropMissingShifts(segments: seq<Segment>) returns (kept: seq<Segment>)
      ensures kept == KeepShifts(segments, shifts)
    {
      kept := [];
      for i := 0 to |segments|
        invariant kept == KeepShifts(segments[..i], shifts)
      {
        var segment := segments[i];
        if segment.shiftId.Some? && segment.shiftId.value !in shifts {
          segment := segment.(shiftId := None);
        }
        kept := kept + [segment];
        assert segments[..i + 1][..i] == segments[..i];
      }
      assert segments[..|segments|] == segments;
    }

    /** writeScheduleTx. */
    method WriteScheduleTx(key: Key, day: Day) returns (saved: Day)
      requires Valid() && StartsHaveEnds(day.content.segments)
      modifies `days, `nextRow
      ensures Now() == WriteDay(old(Now()), key, day)
      ensures saved == day.(content := KeepReferences(old(Now()), day.content))
    {
      hide ReadBack, KeepShifts, StartsHaveEnds;
      var content := day.content;
      if content.sourceImportId.Some? && content.sourceImportId.value !in jobs {
        content := content.(sourceImportId := None);
      }
      var segments := DropMissingShifts(content.segments);
      content := content.(segments := segments);
      saved := day.(content := content);
      if key in days {
        var existing := days[key];
        days := days[key := Row(existing.id, existing.version + 1, existing.createdBy, ReadBack(content))];
      } else {
        days := days[key := Row(nextRow, 1, day.createdBy, ReadBack(content))];
        nextRow := nextRow + 1;
      }
    }

    /** Lock the day, write it, and append the revision with both snapshots. */
    method WriteAndRecord(key: Key, day: Day, create: Change, update: Change, job: Option<nat>, actor: nat)
      requires Valid() && StartsHaveEnds(day.content.segments)
      modifies `days, `nextRow, `revisions
      ensures Valid()
      ensures Now() == Put(old(Now()), key, day, if key in old(days) then update else create, job, actor)
    {
      hide StoredFromDay, ReadBack, KeepReferences, StartsHaveEnds, WriteDay, Put, RowsRenderable;
      KeptHasEnds(Now(), day.content);
      ghost var start := Now();
      RowHasEnds(start, key, day);
      PutKeepsRenderable(start, key, day, if key in days then update else create, job, actor);
      var change, beforeVersion, before := create, None, None;
      if key in days {
        change, beforeVersion, before := update, Some(days[key].version), Some(StoredFromDay(DayOf(days[key])));
      }
      var saved := WriteScheduleTx(key, day);
      var record := Revision(
        Some(days[key].id), key.user, key.date, beforeVersion, Some(days[key].version),
        before, Some(StoredFromDay(saved)), change, job, actor);
      RecordedWriteIsPut(start, Now(), key, day, change, job, actor, record);
      revisions := revisions + [record];
    }

    /** upsertSchedule and saveSchedule. */
    method SaveSchedule(key: Key, status: Status, note: string, segments: seq<Segment>, version: nat, actor: nat)
      returns (error: Option<LedgerError>)
      requires Valid()
      modifies this
      ensures Valid()
      ensures match Save(old(Now()), key, status, note, segments, version, actor)
        case Ok(next) => error.None? && Now() == next
        case Err(e) => error == Some(e) && Now() == old(Now())
    {
      hide StoredFromDay, ReadBack, DayError, GoodDay, TrimSpace, StartsHaveEnds;
      var invalid := ValidateDay(key.date, status, segments);
      if invalid.Some? {
        return Some(InvalidSchedule(invalid.value));
      }
      ValidDayRenderable(key.date, status, segments);
      var saved := Now();
      var day := Day(Content(status, Manual, None, TrimSpace(note), segments), actor);
      var change, beforeVersion, before := ManualCreate, None, None;
      if key !in days {
        if version != 0 {
          return Some(VersionConflict);
        }
        days := days[key := Row(nextRow, 1, actor, ReadBack(day.content))];
        nextRow := nextRow + 1;
      } else {
        var existing := days[key];
        if version == 0 || version != existing.version {
          return Some(VersionConflict);
        }
        change, beforeVersion, before := ManualUpdate, Some(existing.version), Some(StoredFromDay(DayOf(existing)));
        days := days[key := Row(existing.id, existing.version + 1, existing.createdBy, ReadBack(day.content))];
      }
      for i := 0 to |segments|
        invariant forall j :: 0 <= j < i && segments[j].shiftId.Some? ==> segments[j].shiftId.value in shifts
        invariant shifts == saved.shifts
      {
        if segments[i].shiftId.Some? && segments[i].shiftId.value !in shifts {
          Restore(saved);
          return Some(UnknownShift);
        }
      }
      KnownShiftsKept(saved, segments);
      revisions := revisions + [Revision(
        Some(days[key].id), key.user, key.date, beforeVersion, Some(days[key].version),
        before, Some(StoredFromDay(day)), change, None, actor)];
      PutKeepsRenderable(saved, key, day, change, None, actor);
      assert Now() == Put(saved, key, day, change, None, actor);
      return None;
    }

    /** The first loop of batchSchedules: every date is read and validated before any is written. */
    static method CheckDates(dates: seq<string>, status: Status, segments: seq<Segment>)
      returns (error: Option<LedgerError>)
      ensures error == BatchError(dates, |dates|, status, segments)
    {
      hide DayError, ParseDate;
      var seen: set<string> := {};
      for i := 0 to |dates|
        invariant seen == set k | 0 <= k < i :: dates[k]
        invariant BatchError(dates, i, status, segments).None?
      {
        assert dates[i] in dates[..i] <==> dates[i] in seen;
        if ParseDate(dates[i]).None? || dates[i] in seen {
          ErrorStays(dates, i + 1, |dates|, status, segments);
          return Some(InvalidBatchDate);
        }
        seen := seen + {dates[i]};
        var invalid := ValidateDay(dates[i], status, segments);
        if invalid.Some? {
          ErrorStays(dates, i + 1, |dates|, status, segments);
          return Some(InvalidSchedule(invalid.value));
        }
      }
      return None;
    }

    /** batchSchedules: validate every date, then write every date in one transaction. */
    method BatchSchedules(user: nat, dates: seq<string>, status: Status, note: string, segments: seq<Segment>,
        actor: nat)
      returns (error: Option<LedgerError>)
      requires Valid()
      modifies `days, `nextRow, `revisions
      ensures Valid()
      ensures match Batch(old(Now()), user, dates, status, note, segments, actor)
        case Ok(next) => error.None? && Now() == next
        case Err(e) => error == Some(e) && Now() == old(Now())
    {
      hide DayError, Put, BatchError;
      if |dates| == 0 || |dates| > 366 {
        return Some(InvalidBatch);
      }
      error := CheckDates(dates, status, segments);
      if error.Some? {
        return;
      }
      FineDatesRenderable(dates, status, segments);
      var day := Day(Content(status, Manual, None, note, segments), actor);
      ghost var before := Now();
      for i := 0 to |dates|
        invariant Valid()
        invariant PutAll(Now(), user, dates[i..], day, actor) == PutAll(before, user, dates, day, actor)
      {
        assert dates[i..][1..] == dates[i + 1..];
        WriteAndRecord(Key(user, dates[i]), day, BatchCreate, BatchUpdate, None, actor);
      }
      return None;
    }

    /** commitImport. */
    method CommitImport(jobId: nat, expected: nat, actor: nat) returns (error: Option<LedgerError>)
      requires Valid()
      modifies this
      ensures Valid()
      ensures match Commit(old(Now()), jobId, expected, actor)
        case Ok(next) => error.None? && Now() == next
        case Err(e) => error == Some(e) && Now() == old(Now())
    {
      hide DayError, Put, Selected, Written, AnchorHolds;
      var saved := Now();
      if jobId !in jobs {
        return Some(JobNotFound);
      }
      var job := jobs[jobId];
      if job.state == Completed {
        return None;
      }
      if job.state != NeedsReview {
        return Some(NotCommittable);
      }
      if !NamesVersion(job, expected) {
        return Some(StaleVersion);
      }
      if !AnyTrusted(job.items) {
        return Some(NoTrustedResult);
      }
      var items := ByDate(job.items, ItemDate);
      for i := 0 to |items|
        invariant Valid() && shifts == saved.shifts
        invariant CommitItems(Now(), job, jobId, items[i..], actor) == CommitItems(saved, job, jobId, items, actor)
      {
        var failed := CommitOneItem(job, jobId, items[i], actor);
        if failed.Some? {
          Restore(saved);
          return failed;
        }
        assert items[i..][1..] == items[i + 1..];
      }
      jobs := jobs[jobId := job.(state := Completed)];
      return None;
    }

    /** The body of the commit loop. */
    method CommitOneItem(job: ReviewJob, jobId: nat, item: Item, actor: nat) returns (error: Option<LedgerError>)
      requires Valid()
      modifies `days, `nextRow, `revisions
      ensures Valid()
      ensures match CommitItem(old(Now()), job, jobId, item, actor)
        case Ok(next) => error.None? && Now() == next
        case Err(e) => error == Some(e) && Now() == old(Now())
    {
      hide DayError, Put, DayFromStored;
      var key := Key(job.target, item.date);
      if item.kind == Conflict && item.decision.None? {
        return Some(UnresolvedConflicts);
      }
      if !Selected(item) {
        return None;
      }
      if item.anchorId.None? {
        if key in days {
          return Some(StalePreview);
        }
      } else if key !in days || days[key].id != item.anchorId.value || item.anchorVersion != Some(days[key].version) {
        return Some(StalePreview);
      }
      if item.kind == Same || item.decision == Some(KeepExisting) {
        return None;
      }
      var day := ImportedDay(job, jobId, item, actor);
      var invalid := ValidateDay(item.date, day.content.status, day.content.segments);
      if invalid.Some? {
        return Some(InvalidSchedule(invalid.value));
      }
      WriteAndRecord(key, day, ImportCreate, ImportUpdate, Some(jobId), actor);
      return None;
    }

    /** rollbackImport. */
    method RollbackImport(jobId: nat, actor: nat) returns (error: Option<LedgerError>)
      requires Valid()
      modifies this
      ensures Valid()
      ensures match Rollback(old(Now()), jobId, actor)
        case Ok(next) => error.None? && Now() == next
        case Err(e) => error == Some(e) && Now() == old(Now())
    {
      hide RollbackItem;
      var saved := Now();
      if jobId !in jobs {
        return Some(JobNotFound);
      }
      var job := jobs[jobId];
      if job.state == RolledBack {
        return None;
      }
      if job.state != Completed {
        return Some(NotRollbackable);
      }
      var writes := ByDate(WritesOf(revisions, jobId), RevisionDate);
      for i := 0 to |writes|
        invariant Valid() && shifts == saved.shifts && jobId in jobs
        invariant RollbackAll(Now(), job.target, jobId, writes[i..], actor) ==
                  RollbackAll(saved, job.target, jobId, writes, actor)
      {
        var failed := RollbackOneDay(job.target, jobId, writes[i], actor);
        if failed.Some? {
          Restore(saved);
          return failed;
        }
        assert writes[i..][1..] == writes[i + 1..];
      }
      jobs := jobs[jobId := jobs[jobId].(state := RolledBack)];
      return None;
    }

    /** The body of the rollback loop. */
    method RollbackOneDay(user: nat, jobId: nat, r: Revision, actor: nat) returns (error: Option<LedgerError>)
      requires Valid()
      modifies this
      ensures Valid() && shifts == old(shifts) && jobs.Keys == old(jobs.Keys)
      ensures match RollbackItem(old(Now()), user, jobId, r, actor)
        case Ok(next) => error.None? && Now() == next
        case Err(e) => error == Some(e) && Now() == old(Now())
    {
      hide DayFromStored, StoredFromDay, ReadBack;
      var key := Key(user, r.date);
      if key !in days {
        return Some(RollbackConflict);
      }
      var current := days[key];
      if r.afterVersion != Some(current.version) || current.content.sourceImportId != Some(jobId) {
        return Some(RollbackConflict);
      }
      RollbackItemKeepsRenderable(Now(), user, jobId, r, actor);
      if r.before.None? {
        days := days - {key};
        revisions := Detach(revisions, current.id);
        jobs := map j | j in jobs :: jobs[j].(items := Unanchor(jobs[j].items, current.id));
        revisions := revisions + [Revision(
          None, user, r.date, Some(current.version), None, r.after, None, RollbackDelete, Some(jobId), actor)];
      } else {
        var restored := DayFromStored(r.before.value);
        var snapshot := RestoredSnapshot(Now(), restored);
        var _ := WriteScheduleTx(key, restored);
        revisions := revisions + [Revision(
          Some(current.id), user, r.date, Some(current.version), Some(current.version + 1), r.after,
          Some(snapshot), RollbackRestore, Some(jobId), actor)];
      }
      return None;
    }
  }

  lemma RowHasEnds(db: Db, key: Key, day: Day)
    requires RowsRenderable(db)
    ensures key in db.days ==> StartsHaveEnds(DayOf(db.days[key]).content.segments)
    ensures BeforeSnapshot(db, key) == if key in db.days then Some(StoredFromDay(DayOf(db.days[key]))) else None
    ensures key in WriteDay(db, key, day).days
  {
    hide StoredFromDay, StartsHaveEnds, RowAfterWrite;
  }

  /** Writing the row and appending its revision is what the specification calls a put. */
  lemma RecordedWriteIsPut(start: Db, written: Db, key: Key, day: Day, change: Change, job: Option<nat>, actor: nat,
      record: Revision)
    requires RowsRenderable(start) && StartsHaveEnds(day.content.segments) && written == WriteDay(start, key, day)
    requires StartsHaveEnds(KeepReferences(start, day.content).segments)
    requires record == Revision(
               Some(written.days[key].id), key.user, key.date, BeforeVersion(start, key),
               Some(written.days[key].version), BeforeSnapshot(start, key),
               Some(StoredFromDay(day.(content := KeepReferences(start, day.content)))), change, job, actor)
    ensures written.(revisions := start.revisions + [record]) == Put(start, key, day, change, job, actor)
  {
    hide StoredFromDay, ReadBack, KeepReferences, StartsHaveEnds;
  }

  lemma KeptHasEnds(db: Db, c: Content)
    requires StartsHaveEnds(c.segments)
    ensures StartsHaveEnds(KeepReferences(db, c).segments)
  {
    KeepShiftsKeepsEnds(c.segments, db.shifts);
  }

  /** A later date does not change the first error. */
  lemma {:induction false} ErrorStays(dates: seq<string>, n: nat, m: nat, status: Status, segments: seq<Segment>)
    requires n <= m <= |dates| && BatchError(dates, n, status, segments).Some?
    ensures BatchError(dates, m, status, segments) == BatchError(dates, n, status, segments)
    decreases m - n
  {
    hide DateError;
    if n < m {
      ErrorStays(dates, n, m - 1, status, segments);
    }
  }

  lemma KnownShiftsKept(db: Db, segments: seq<Segment>)
    requires ShiftsKnown(db, segments)
    ensures KeepShifts(segments, db.shifts) == segments
  {
  }
}
