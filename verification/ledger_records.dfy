/** What the transactions of the ledger record, and with which error they refuse, by the fields
    of rows, revisions and items. */
module LedgerRecords {
  import opened Common
  import opened Calendar
  import opened DateOrder
  import opened Text
  import opened ScheduleDomain
  import opened Snapshots
  import opened Review
  import opened Ledger
  import opened LedgerInvariant
  import opened LedgerOutcomes

  // ----- what a write keeps of its references

  /** A write keeps a reference to an import or to a shift exactly while that is there, and
      everything else as it is. */
  lemma KeepByFields(db: Db, c: Content)
    ensures var kept := KeepReferences(db, c);
            kept.status == c.status && kept.sourceType == c.sourceType && kept.note == c.note
            && kept.sourceImportId == (if c.sourceImportId.Some? && c.sourceImportId.value in db.jobs
                                       then c.sourceImportId else None)
            && |kept.segments| == |c.segments|
            && forall i :: 0 <= i < |c.segments| ==>
                 kept.segments[i] == c.segments[i].(
                   shiftId := if c.segments[i].shiftId.Some? && c.segments[i].shiftId.value in db.shifts
                              then c.segments[i].shiftId else None)
  {
  }

  // ----- the record of a write

  /** The revision names the row, the versions and the day before and after, and who wrote. */
  ghost predicate TellsWrite(db: Db, next: Db, w: Revision, key: Key, actor: nat)
    requires RowsRenderable(db)
  {
    key in next.days && w.dayId == Some(next.days[key].id) && w.user == key.user && w.date == key.date
    && w.afterVersion == Some(next.days[key].version) && w.changedBy == actor
    && w.after.Some? && DayFromStored(w.after.value).content == next.days[key].content
    && if key in db.days
       then w.beforeVersion == Some(db.days[key].version)
            && w.before == Some(StoredFromDay(Day(db.days[key].content, db.days[key].createdBy)))
       else w.beforeVersion == None && w.before == None
  }

  lemma PutRecords(db: Db, key: Key, day: Day, change: Change, job: Option<nat>, actor: nat)
    requires RowsOk(db) && RowsRenderable(db) && StartsHaveEnds(day.content.segments)
    ensures var next := Put(db, key, day, change, job, actor);
            |next.revisions| == |db.revisions| + 1 && next.revisions[..|db.revisions|] == db.revisions
            && var w := next.revisions[|db.revisions|];
               TellsWrite(db, next, w, key, actor) && w.change == change && w.job == job
  {
    hide RowsOk, DayFromStored, ReadBack, KeepReferences;
    AfterSnapshotIsRow(db, key, day, change, job, actor);
  }

  /** A save leaves one revision behind the others: a manual creation or change of that day. */
  lemma SaveRecords(db: Db, key: Key, status: Status, note: string, segments: seq<Segment>, version: nat, actor: nat)
    requires Inv(db) && RowsRenderable(db) && Save(db, key, status, note, segments, version, actor).Ok?
    ensures var next := Save(db, key, status, note, segments, version, actor).value;
            |next.revisions| == |db.revisions| + 1 && next.revisions[..|db.revisions|] == db.revisions
            && var w := next.revisions[|db.revisions|];
               TellsWrite(db, next, w, key, actor) && w.job == None
               && w.change == if key in db.days then ManualUpdate else ManualCreate
  {
    hide DayError, Put, ShiftsKnown, TellsWrite, TrimSpace;
    ValidDayRenderable(key.date, status, segments);
    InvRows(db);
    PutRecords(db, key, Day(Content(status, Manual, None, TrimSpace(note), segments), actor),
               if key in db.days then ManualUpdate else ManualCreate, None, actor);
  }

  lemma InvRows(db: Db)
    requires Inv(db)
    ensures RowsOk(db)
  {
    hide RowsOk;
  }

  /** The error of a refused save: an invalid day comes before a wrong version, and that before
      an unknown shift. */
  lemma SaveErrors(db: Db, key: Key, status: Status, note: string, segments: seq<Segment>, version: nat, actor: nat)
    requires RowsRenderable(db) && Save(db, key, status, note, segments, version, actor).Err?
    ensures var current := if key in db.days then db.days[key].version else 0;
            Save(db, key, status, note, segments, version, actor).error ==
            if DayError(key.date, status, segments).Some?
            then InvalidSchedule(DayError(key.date, status, segments).value)
            else if version != current || (key in db.days && version == 0) then VersionConflict else UnknownShift
  {
    hide DayError, Put, ShiftsKnown, TrimSpace;
  }

  // ----- batches

  /** A batch leaves one revision for each of its dates, in their order. */
  ghost predicate BatchRecorded(db: Db, next: Db, user: nat, dates: seq<string>, actor: nat)
    requires RowsRenderable(db)
  {
    |next.revisions| == |db.revisions| + |dates| && next.revisions[..|db.revisions|] == db.revisions
    && forall i :: 0 <= i < |dates| ==>
         DateRecorded(db, next, next.revisions[|db.revisions| + i], Key(user, dates[i]), actor)
  }

  ghost predicate DateRecorded(db: Db, next: Db, w: Revision, key: Key, actor: nat)
    requires RowsRenderable(db)
  {
    TellsWrite(db, next, w, key, actor) && w.job == None
    && w.change == if key in db.days then BatchUpdate else BatchCreate
  }

  lemma RecordedElsewhere(db: Db, mid: Db, next: Db, w: Revision, key: Key, actor: nat)
    requires RowsRenderable(db) && RowsRenderable(mid)
    requires SameAt(db, mid, key) && DateRecorded(mid, next, w, key, actor)
    ensures DateRecorded(db, next, w, key, actor)
  {
    hide StoredFromDay, DayFromStored;
  }

  lemma RecordedStays(db: Db, mid: Db, next: Db, w: Revision, key: Key, actor: nat)
    requires RowsRenderable(db) && SameAt(mid, next, key) && DateRecorded(db, mid, w, key, actor)
    ensures DateRecorded(db, next, w, key, actor)
  {
    hide StoredFromDay, DayFromStored;
  }

  lemma BatchStep(db: Db, mid: Db, next: Db, user: nat, dates: seq<string>, actor: nat)
    requires RowsRenderable(db) && RowsRenderable(mid) && |dates| > 0 && DatesOnce(dates)
    requires |mid.revisions| == |db.revisions| + 1 && mid.revisions[..|db.revisions|] == db.revisions
    requires DateRecorded(db, mid, mid.revisions[|db.revisions|], Key(user, dates[0]), actor)
    requires SameElsewhere(db, mid, user, {dates[0]}) && SameElsewhere(mid, next, user, DateSet(dates[1..]))
    requires BatchRecorded(mid, next, user, dates[1..], actor)
    ensures BatchRecorded(db, next, user, dates, actor)
  {
    hide DateRecorded, SameAt;
    var n, rest := |db.revisions|, dates[1..];
    DatesSplit(dates);
    assert next.revisions[..n] == next.revisions[..n + 1][..n] == db.revisions;
    forall i | 0 <= i < |dates|
      ensures DateRecorded(db, next, next.revisions[n + i], Key(user, dates[i]), actor)
    {
      if i == 0 {
        assert next.revisions[n] == next.revisions[..n + 1][n] == mid.revisions[n];
        assert SameAt(mid, next, Key(user, dates[0]));
        RecordedStays(db, mid, next, mid.revisions[n], Key(user, dates[0]), actor);
      } else {
        assert dates[i] == rest[i - 1] && next.revisions[n + i] == next.revisions[|mid.revisions| + (i - 1)];
        assert SameAt(db, mid, Key(user, dates[i]));
        RecordedElsewhere(db, mid, next, next.revisions[n + i], Key(user, dates[i]), actor);
      }
    }
  }

  lemma {:induction false} PutAllRecords(db: Db, user: nat, dates: seq<string>, day: Day, actor: nat)
    requires RowsOk(db) && RowsRenderable(db) && StartsHaveEnds(day.content.segments) && DatesOnce(dates)
    ensures BatchRecorded(db, PutAll(db, user, dates, day, actor), user, dates, actor)
    decreases |dates|
  {
    if dates != [] {
      hide Put, RowsOk, RowWritten, SameElsewhere, SameReferences, BatchRecorded, DatesOnce, TellsWrite;
      var key := Key(user, dates[0]);
      var change := if key in db.days then BatchUpdate else BatchCreate;
      DatesSplit(dates);
      PutKeepsRenderable(db, key, day, change, None, actor);
      PutKeepsRows(db, key, day, change, None, actor);
      PutOutcome(db, key, day, change, None, actor);
      PutRecords(db, key, day, change, None, actor);
      var mid := Put(db, key, day, change, None, actor);
      PutAllRecords(mid, user, dates[1..], day, actor);
      PutAllOutcome(mid, user, dates[1..], day, actor);
      RestWritten(mid, PutAll(mid, user, dates[1..], day, actor), user, dates[1..], day);
      BatchStep(db, mid, PutAll(mid, user, dates[1..], day, actor), user, dates, actor);
    }
  }

  lemma RestWritten(db: Db, next: Db, user: nat, dates: seq<string>, day: Day)
    requires AllWritten(db, next, user, dates, day)
    ensures SameElsewhere(db, next, user, DateSet(dates))
  {
    hide SameElsewhere, RowWritten;
  }

  lemma PutKeepsRows(db: Db, key: Key, day: Day, change: Change, job: Option<nat>, actor: nat)
    requires RowsOk(db) && RowsRenderable(db) && StartsHaveEnds(day.content.segments)
    ensures RowsOk(Put(db, key, day, change, job, actor))
  {
    hide Canonical, ReadBack, StoredFromDay;
    KeepShiftsKeepsEnds(day.content.segments, db.shifts);
    ReadBackIsCanonical(KeepReferences(db, day.content));
  }

  lemma BatchRecords(db: Db, user: nat, dates: seq<string>, status: Status, note: string, segments: seq<Segment>,
      actor: nat)
    requires Inv(db) && RowsRenderable(db) && Batch(db, user, dates, status, note, segments, actor).Ok?
    ensures BatchRecorded(db, Batch(db, user, dates, status, note, segments, actor).value, user, dates, actor)
  {
    hide DayError, PutAll, BatchError, BatchRecorded, Inv, RowsOk;
    InvRows(db);
    FineDatesMeaning(dates, status, segments);
    FineDatesRenderable(dates, status, segments);
    PutAllRecords(db, user, dates, Day(Content(status, Manual, None, note, segments), actor), actor);
  }

  // ----- rollbacks

  /** The revision of one write taken back: its snapshots change places, and a day that the
      import had made has neither version nor snapshot afterwards. */
  predicate TellsUndo(row: Row, w: Revision, undo: Revision, jobId: nat, actor: nat) {
    undo.user == w.user && undo.date == w.date && undo.job == Some(jobId) && undo.changedBy == actor
    && undo.beforeVersion == Some(row.version) && undo.before == w.after
    && if w.before == None then undo.change == RollbackDelete && undo.afterVersion == None && undo.after == None
       else undo.change == RollbackRestore && undo.afterVersion == Some(row.version + 1) && undo.after.Some?
  }

  /** Two revisions that differ at most in the row they are attached to. */
  predicate SameButRow(a: Revision, b: Revision) {
    a == b.(dayId := a.dayId)
  }

  ghost predicate EarlierKept(was: seq<Revision>, revisions: seq<Revision>) {
    |was| <= |revisions| && forall i :: 0 <= i < |was| ==> SameButRow(revisions[i], was[i])
  }

  lemma UndoRecords(db: Db, user: nat, jobId: nat, w: Revision, actor: nat)
    requires RowsRenderable(db) && RollbackItem(db, user, jobId, w, actor).Ok? && w.user == user
    ensures var next, n := RollbackItem(db, user, jobId, w, actor).value, |db.revisions|;
            |next.revisions| == n + 1 && EarlierKept(db.revisions, next.revisions)
            && UndoRecorded(db, user, jobId, w, next.revisions[n], actor)
  {
    hide DayFromStored, ReadBack, StoredFromDay, KeepReferences, KeepShifts;
  }

  /** A rollback leaves one revision for each write it takes back, in the order it does so. */
  ghost predicate UndosRecorded(db: Db, revisions: seq<Revision>, user: nat, jobId: nat, writes: seq<Revision>,
      actor: nat)
  {
    |revisions| == |db.revisions| + |writes| && EarlierKept(db.revisions, revisions)
    && forall i :: 0 <= i < |writes| ==> UndoRecorded(db, user, jobId, writes[i], revisions[|db.revisions| + i], actor)
  }

  predicate UndoRecorded(db: Db, user: nat, jobId: nat, w: Revision, undo: Revision, actor: nat) {
    Key(user, w.date) in db.days && TellsUndo(db.days[Key(user, w.date)], w, undo, jobId, actor)
  }

  lemma NothingUndone(db: Db, user: nat, jobId: nat, actor: nat)
    ensures UndosRecorded(db, db.revisions, user, jobId, [], actor)
  {
  }

  lemma RestOnce(writes: seq<Revision>)
    requires |writes| > 0 && OnePerDate(writes, RevisionDate)
    ensures OnePerDate(writes[1..], RevisionDate)
  {
    var rest := writes[1..];
    forall i, j | 0 <= i < j < |rest| ensures RevisionDate(rest[i]) != RevisionDate(rest[j]) {
      assert RevisionDate(writes[i + 1]) != RevisionDate(writes[j + 1]);
    }
  }

  lemma {:induction false} RollbackAllRecords(db: Db, user: nat, jobId: nat, writes: seq<Revision>, actor: nat)
    requires RowsRenderable(db) && OnePerDate(writes, RevisionDate)
    requires forall i :: 0 <= i < |writes| ==> writes[i].user == user
    requires RollbackAll(db, user, jobId, writes, actor).Ok?
    ensures UndosRecorded(db, RollbackAll(db, user, jobId, writes, actor).value.revisions, user, jobId, writes, actor)
    decreases |writes|
  {
    hide RollbackItem, SameElsewhere, EarlierKept, UndosRecorded, Undone, UndoRecorded, OnePerDate, RowsRenderable;
    if writes == [] {
      NothingUndone(db, user, jobId, actor);
    } else {
      var mid := RollbackItem(db, user, jobId, writes[0], actor).value;
      var rest := writes[1..];
      RollbackItemOutcome(db, user, jobId, writes[0], actor);
      RollbackItemKeepsRenderable(db, user, jobId, writes[0], actor);
      UndoRecords(db, user, jobId, writes[0], actor);
      RestOnce(writes);
      RollbackAllRecords(mid, user, jobId, rest, actor);
      UndosStep(db, mid, RollbackAll(mid, user, jobId, rest, actor).value.revisions, user, jobId, writes, actor);
    }
  }

  lemma UndosStep(db: Db, mid: Db, last: seq<Revision>, user: nat, jobId: nat, writes: seq<Revision>, actor: nat)
    requires |writes| > 0 && OnePerDate(writes, RevisionDate) && |mid.revisions| == |db.revisions| + 1
    requires EarlierKept(db.revisions, mid.revisions) && SameElsewhere(db, mid, user, {writes[0].date})
    requires UndoRecorded(db, user, jobId, writes[0], mid.revisions[|db.revisions|], actor)
    requires UndosRecorded(mid, last, user, jobId, writes[1..], actor)
    ensures UndosRecorded(db, last, user, jobId, writes, actor)
  {
    var n := |db.revisions|;
    forall i | 0 <= i < n ensures SameButRow(last[i], db.revisions[i]) {
      assert SameButRow(last[i], mid.revisions[i]) && SameButRow(mid.revisions[i], db.revisions[i]);
    }
    forall i | 0 <= i < |writes| ensures UndoRecorded(db, user, jobId, writes[i], last[n + i], actor) {
      if i == 0 {
        assert SameButRow(last[n], mid.revisions[n]);
      } else {
        assert RevisionDate(writes[0]) != RevisionDate(writes[i]);
        assert SameAt(db, mid, Key(user, writes[i].date));
        assert writes[i] == writes[1..][i - 1];
        assert UndoRecorded(mid, user, jobId, writes[1..][i - 1], last[n + 1 + (i - 1)], actor);
      }
    }
  }

  /** A rollback of a completed import that goes through leaves one revision for each of its
      writes, by date, and the earlier ones as they were but for the rows they are attached to. */
  lemma RollbackRecords(db: Db, jobId: nat, actor: nat)
    requires Inv(db) && RowsRenderable(db) && jobId in db.jobs && db.jobs[jobId].state == Completed
    requires Rollback(db, jobId, actor).Ok?
    ensures UndosRecorded(db, Rollback(db, jobId, actor).value.revisions, db.jobs[jobId].target, jobId,
                          ByDate(WritesOf(db.revisions, jobId), RevisionDate), actor)
  {
    hide Inv, RollbackAll, UndosRecorded, WritesOf, ByDate, Attached;
    RollbackList(db, jobId);
    RollbackAllRecords(db, db.jobs[jobId].target, jobId, ByDate(WritesOf(db.revisions, jobId), RevisionDate), actor);
  }

  // ----- refusals

  lemma {:induction false} RollbackAllError(db: Db, user: nat, jobId: nat, writes: seq<Revision>, actor: nat)
    requires RowsRenderable(db) && RollbackAll(db, user, jobId, writes, actor).Err?
    ensures RollbackAll(db, user, jobId, writes, actor).error == RollbackConflict
    decreases |writes|
  {
    hide RollbackItem;
    if RollbackItem(db, user, jobId, writes[0], actor).Ok? {
      RollbackItemKeepsRenderable(db, user, jobId, writes[0], actor);
      RollbackAllError(RollbackItem(db, user, jobId, writes[0], actor).value, user, jobId, writes[1..], actor);
    } else {
      ItemError(db, user, jobId, writes[0], actor);
    }
  }

  lemma ItemError(db: Db, user: nat, jobId: nat, w: Revision, actor: nat)
    requires RowsRenderable(db) && RollbackItem(db, user, jobId, w, actor).Err?
    ensures RollbackItem(db, user, jobId, w, actor).error == RollbackConflict
  {
  }

  /** A rollback is refused for a missing job, for one that was not completed, and for a day
      written since; a second one changes nothing. */
  lemma RollbackErrors(db: Db, jobId: nat, actor: nat)
    requires Inv(db) && RowsRenderable(db)
    ensures jobId !in db.jobs ==> Rollback(db, jobId, actor) == Err(JobNotFound)
    ensures jobId in db.jobs && db.jobs[jobId].state == RolledBack ==> Rollback(db, jobId, actor) == Ok(db)
    ensures jobId in db.jobs && db.jobs[jobId].state != RolledBack && db.jobs[jobId].state != Completed ==>
              Rollback(db, jobId, actor) == Err(NotRollbackable)
    ensures jobId in db.jobs && db.jobs[jobId].state == Completed && Rollback(db, jobId, actor).Err? ==>
              Rollback(db, jobId, actor).error == RollbackConflict
  {
    hide Inv, RollbackAll, WritesOf, ByDate, Attached, RollbackOutcome, AllOwned;
    if jobId in db.jobs && db.jobs[jobId].state == Completed {
      var user, writes := db.jobs[jobId].target, ByDate(WritesOf(db.revisions, jobId), RevisionDate);
      if RollbackAll(db, user, jobId, writes, actor).Err? {
        RollbackAllError(db, user, jobId, writes, actor);
      } else {
        RollbackList(db, jobId);
        RollbackAllOutcome(db, user, jobId, writes, actor);
        OutcomeKeepsKeys(db, RollbackAll(db, user, jobId, writes, actor).value, user, writes);
        assert jobId in db.jobs.Keys;
      }
    }
  }

  /** What is wrong with an item a commit refuses: an undecided conflict comes before a day that
      changed since the preview, and that before a draft that makes no valid day. */
  ghost predicate Fault(db: Db, job: ReviewJob, jobId: nat, item: Item, error: LedgerError) {
    if item.kind == Conflict && item.decision == None then error == UnresolvedConflicts
    else
      Considered(item)
      && if !AsFound(db, Key(job.target, item.date), item) then error == StalePreview
         else
           TakenOver(item)
           && var content := TakenContent(job, jobId, item);
              DayError(item.date, content.status, content.segments).Some?
              && error == InvalidSchedule(DayError(item.date, content.status, content.segments).value)
  }

  lemma ItemFault(db: Db, job: ReviewJob, jobId: nat, item: Item, actor: nat)
    requires RowsRenderable(db) && CommitItem(db, job, jobId, item, actor).Err?
    ensures Fault(db, job, jobId, item, CommitItem(db, job, jobId, item, actor).error)
  {
    hide DayError, Put, Selected, Written, AnchorHolds, AsFound, ImportedDay, DayFromStored;
    ItemByFields(db, Key(job.target, item.date), job, jobId, item, actor);
  }

  lemma FaultLater(db: Db, mid: Db, job: ReviewJob, jobId: nat, item: Item, error: LedgerError)
    requires SameAt(db, mid, Key(job.target, item.date)) && Fault(mid, job, jobId, item, error)
    ensures Fault(db, job, jobId, item, error)
  {
    hide DayError, TakenContent, Considered, TakenOver;
  }

  /** The i-th item is the first that is not fine. */
  ghost predicate FirstFault(db: Db, job: ReviewJob, jobId: nat, items: seq<Item>, i: nat, actor: nat,
      error: LedgerError)
    requires i < |items|
  {
    Fault(db, job, jobId, items[i], error) && forall k :: 0 <= k < i ==> ItemFine(db, job, jobId, items[k], actor)
  }

  lemma {:induction false} CommitItemsFault(db: Db, job: ReviewJob, jobId: nat, items: seq<Item>, actor: nat)
      returns (i: nat)
    requires RowsRenderable(db) && jobId in db.jobs && OneItemPerDate(items)
    requires CommitItems(db, job, jobId, items, actor).Err?
    ensures i < |items| && FirstFault(db, job, jobId, items, i, actor, CommitItems(db, job, jobId, items, actor).error)
    decreases |items|
  {
    hide CommitItem, ItemFine, Fault, ItemOutcome, Undoable, TakenOver, SameElsewhere;
    if CommitItem(db, job, jobId, items[0], actor).Err? {
      i := 0;
      ItemFault(db, job, jobId, items[0], actor);
    } else {
      var mid, rest := CommitItem(db, job, jobId, items[0], actor).value, items[1..];
      CommitItemOutcome(db, job, jobId, items[0], actor);
      CommitItemKeepsRenderable(db, job, jobId, items[0], actor);
      assert jobId in db.jobs.Keys;
      var k := CommitItemsFault(mid, job, jobId, rest, actor);
      i := k + 1;
      FaultStep(db, mid, job, jobId, items, k, actor, CommitItems(mid, job, jobId, rest, actor).error);
    }
  }

  lemma FaultStep(db: Db, mid: Db, job: ReviewJob, jobId: nat, items: seq<Item>, k: nat, actor: nat,
      error: LedgerError)
    requires k + 1 < |items| && OneItemPerDate(items) && SameElsewhere(db, mid, job.target, {items[0].date})
    requires ItemFine(db, job, jobId, items[0], actor)
    requires FirstFault(mid, job, jobId, items[1..], k, actor, error)
    ensures FirstFault(db, job, jobId, items, k + 1, actor, error)
  {
    hide ItemFine, Fault;
    var rest := items[1..];
    assert items[0].date != items[k + 1].date;
    FaultLater(db, mid, job, jobId, items[k + 1], error);
    forall j | 0 <= j < k + 1 ensures ItemFine(db, job, jobId, items[j], actor) {
      if j > 0 {
        assert items[j] == rest[j - 1] && items[0].date != items[j].date;
        FineLater(db, mid, job, jobId, items[j], actor);
      }
    }
  }

  /** A commit is refused for a missing job, for one that is not under review, for a version
      that is not the current one and for items of which none can be trusted; past that the
      first item by date that is not fine decides the error. A second commit changes nothing. */
  lemma CommitErrors(db: Db, jobId: nat, expected: nat, actor: nat)
    requires Inv(db) && RowsRenderable(db)
    ensures var r := Commit(db, jobId, expected, actor);
            if jobId !in db.jobs then r == Err(JobNotFound)
            else
              var job := db.jobs[jobId];
              if job.state == Completed then r == Ok(db)
              else if job.state != NeedsReview then r == Err(NotCommittable)
              else if expected == 0 || expected != job.reviewVersion then r == Err(StaleVersion)
              else if !SomeTrusted(job.items) then r == Err(NoTrustedResult)
              else
                var sorted := ByDate(job.items, ItemDate);
                r.Err? ==> exists i :: 0 <= i < |sorted| && FirstFault(db, job, jobId, sorted, i, actor, r.error)
  {
    hide Inv, CommitItems, SomeTrusted, AnyTrusted, ByDate, FirstFault;
    if jobId in db.jobs {
      var job := db.jobs[jobId];
      var sorted := ByDate(job.items, ItemDate);
      TrustedByFields(job.items);
      JobItemsOnce(db, jobId);
      SortedItemsOnce(job.items);
      if CommitItems(db, job, jobId, sorted, actor).Err? {
        var i := CommitItemsFault(db, job, jobId, sorted, actor);
      }
    }
  }

  lemma JobItemsOnce(db: Db, jobId: nat)
    requires Inv(db) && jobId in db.jobs
    ensures OneItemPerDate(db.jobs[jobId].items)
  {
    hide OneItemPerDate;
  }

  lemma SortedItemsOnce(items: seq<Item>)
    requires OneItemPerDate(items)
    ensures OneItemPerDate(ByDate(items, ItemDate))
  {
    hide ByDate;
    assert forall i, j :: 0 <= i < j < |items| ==> ItemDate(items[i]) != ItemDate(items[j]);
    ByDateKeepsDates(items, ItemDate);
    var sorted := ByDate(items, ItemDate);
    forall i, j | 0 <= i < j < |sorted| ensures sorted[i].date != sorted[j].date {
      assert ItemDate(sorted[i]) != ItemDate(sorted[j]);
    }
  }
}
