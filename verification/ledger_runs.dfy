/** Whole runs of the ledger: a row's version names one content for ever, so the small
    checks of commit and rollback are enough. */
module LedgerRuns {
  import opened Common
  import opened DateOrder
  import opened ScheduleDomain
  import opened Snapshots
  import opened Review
  import opened Ledger
  import opened LedgerInvariant
  import opened LedgerOutcomes

  /** Everything that writes schedule rows, revisions or import jobs. */
  datatype Event =
    | SaveDay(key: Key, status: Status, note: string, segments: seq<Segment>, version: nat, actor: nat)
    | SaveBatch(user: nat, dates: seq<string>, status: Status, note: string, segments: seq<Segment>, actor: nat)
    | CommitImport(jobId: nat, expected: nat, actor: nat)
    | RollbackImport(jobId: nat, actor: nat)
    | ChangeJob(jobId: nat, job: ReviewJob)

  ghost predicate Step(db: Db, event: Event, next: Db)
    requires RowsRenderable(db)
  {
    match event
    case SaveDay(key, status, note, segments, version, actor) =>
      Save(db, key, status, note, segments, version, actor) == Ok(next)
    case SaveBatch(user, dates, status, note, segments, actor) =>
      Batch(db, user, dates, status, note, segments, actor) == Ok(next)
    case CommitImport(jobId, expected, actor) => Commit(db, jobId, expected, actor) == Ok(next)
    case RollbackImport(jobId, actor) => Rollback(db, jobId, actor) == Ok(next)
    case ChangeJob(jobId, job) => ReviewChange(db, jobId, job) && next == WithJob(db, jobId, job)
  }

  ghost predicate Next(db: Db, next: Db) {
    RowsRenderable(db) && exists event :: Step(db, event, next)
  }

  /** Any sequence of successful transactions from a state with the invariant. */
  ghost predicate Run(run: seq<Db>) {
    |run| > 0 && Inv(run[0]) && forall i :: 0 <= i < |run| - 1 ==> Next(run[i], run[i + 1])
  }

  /** A ledger nobody has written yet. */
  ghost predicate Empty(db: Db) {
    db.days == map[] && db.revisions == [] && db.jobs == map[]
  }

  lemma EmptyHasInv(db: Db)
    requires Empty(db)
    ensures Inv(db)
  {
  }

  lemma StepKeepsInv(db: Db, event: Event, next: Db)
    requires Inv(db) && RowsRenderable(db) && Step(db, event, next)
    ensures Inv(next)
  {
    hide Inv, Save, Batch, Commit, Rollback, ReviewChange;
    match event {
      case SaveDay(key, status, note, segments, version, actor) =>
        SaveKeepsInv(db, key, status, note, segments, version, actor);
      case SaveBatch(user, dates, status, note, segments, actor) =>
        BatchKeepsInv(db, user, dates, status, note, segments, actor);
      case CommitImport(jobId, expected, actor) =>
        CommitFindsJob(db, jobId, expected, actor);
        CommitKeepsInv(db, jobId, expected, actor);
      case RollbackImport(jobId, actor) =>
        RollbackKeepsInv(db, jobId, actor);
      case ChangeJob(jobId, job) =>
        ReviewChangeKeepsInv(db, jobId, job);
    }
  }

  lemma CommitFindsJob(db: Db, jobId: nat, expected: nat, actor: nat)
    requires RowsRenderable(db) && Commit(db, jobId, expected, actor).Ok?
    ensures jobId in db.jobs
  {
  }

  lemma {:induction false} InvAlways(run: seq<Db>, i: nat)
    requires Run(run) && i < |run|
    ensures Inv(run[i])
  {
    hide Inv, Step;
    if i > 0 {
      InvAlways(run, i - 1);
      assert Next(run[i - 1], run[i - 1 + 1]);
      var event :| Step(run[i - 1], event, run[i]);
      StepKeepsInv(run[i - 1], event, run[i]);
    }
  }

  // ----- rows only move forward

  /** A row of the later state is new, or it is the same row: unchanged, or at a higher version. */
  ghost predicate RowEvolves(db: Db, key: Key, row: Row) {
    row.id >= db.nextRow
    || (key in db.days && db.days[key].id == row.id && (row == db.days[key] || row.version > db.days[key].version))
  }

  /** Revisions are only appended; the foreign key of one may be set to NULL. */
  ghost predicate RecordsKept(db: Db, next: Db) {
    |db.revisions| <= |next.revisions|
    && forall k :: 0 <= k < |db.revisions| ==>
         next.revisions[k] == db.revisions[k] || next.revisions[k] == db.revisions[k].(dayId := None)
  }

  ghost predicate Evolves(db: Db, next: Db) {
    db.nextRow <= next.nextRow && RecordsKept(db, next)
    && forall key :: key in next.days ==> RowEvolves(db, key, next.days[key])
  }

  lemma EvolvesTransitive(a: Db, b: Db, c: Db)
    requires Evolves(a, b) && Evolves(b, c)
    ensures Evolves(a, c)
  {
    forall key | key in c.days ensures RowEvolves(a, key, c.days[key]) {
      assert RowEvolves(b, key, c.days[key]);
      if key in b.days {
        assert RowEvolves(a, key, b.days[key]);
      }
    }
  }

  lemma {:induction false} PutAllEvolves(db: Db, user: nat, dates: seq<string>, day: Day, actor: nat)
    requires RowsRenderable(db) && StartsHaveEnds(day.content.segments)
    ensures Evolves(db, PutAll(db, user, dates, day, actor))
    decreases |dates|
  {
    if dates != [] {
      hide RowAfterWrite, StoredFromDay;
      var key := Key(user, dates[0]);
      var change := if key in db.days then BatchUpdate else BatchCreate;
      PutEvolves(db, key, day, change, None, actor);
      PutKeepsRenderable(db, key, day, change, None, actor);
      var next := Put(db, key, day, change, None, actor);
      PutAllEvolves(next, user, dates[1..], day, actor);
      EvolvesTransitive(db, next, PutAll(next, user, dates[1..], day, actor));
    }
  }

  lemma PutEvolves(db: Db, key: Key, day: Day, change: Change, job: Option<nat>, actor: nat)
    requires RowsRenderable(db) && StartsHaveEnds(day.content.segments)
    ensures Evolves(db, Put(db, key, day, change, job, actor))
  {
    hide ReadBack, KeepReferences, StoredFromDay;
  }

  lemma {:induction false} CommitItemsEvolve(db: Db, job: ReviewJob, jobId: nat, items: seq<Item>, actor: nat)
    requires RowsRenderable(db) && CommitItems(db, job, jobId, items, actor).Ok?
    ensures Evolves(db, CommitItems(db, job, jobId, items, actor).value)
    decreases |items|
  {
    if items != [] {
      var next := CommitItem(db, job, jobId, items[0], actor).value;
      CommitItemEvolves(db, job, jobId, items[0], actor);
      CommitItemKeepsRenderable(db, job, jobId, items[0], actor);
      CommitItemsEvolve(next, job, jobId, items[1..], actor);
      EvolvesTransitive(db, next, CommitItems(next, job, jobId, items[1..], actor).value);
    }
  }

  lemma CommitItemEvolves(db: Db, job: ReviewJob, jobId: nat, item: Item, actor: nat)
    requires RowsRenderable(db) && CommitItem(db, job, jobId, item, actor).Ok?
    ensures Evolves(db, CommitItem(db, job, jobId, item, actor).value)
  {
    hide DayError, DayFromStored, ReadBack, KeepReferences, StoredFromDay;
  }

  lemma RollbackItemEvolves(db: Db, user: nat, jobId: nat, r: Revision, actor: nat)
    requires RowsRenderable(db) && RollbackItem(db, user, jobId, r, actor).Ok?
    ensures Evolves(db, RollbackItem(db, user, jobId, r, actor).value)
  {
    hide DayFromStored, ReadBack, KeepReferences, StoredFromDay;
  }

  lemma {:induction false} RollbackAllEvolves(db: Db, user: nat, jobId: nat, writes: seq<Revision>, actor: nat)
    requires RowsRenderable(db) && RollbackAll(db, user, jobId, writes, actor).Ok?
    ensures Evolves(db, RollbackAll(db, user, jobId, writes, actor).value)
    decreases |writes|
  {
    if writes != [] {
      var next := RollbackItem(db, user, jobId, writes[0], actor).value;
      RollbackItemEvolves(db, user, jobId, writes[0], actor);
      RollbackItemKeepsRenderable(db, user, jobId, writes[0], actor);
      RollbackAllEvolves(next, user, jobId, writes[1..], actor);
      EvolvesTransitive(db, next, RollbackAll(next, user, jobId, writes[1..], actor).value);
    }
  }

  lemma StepEvolves(db: Db, event: Event, next: Db)
    requires RowsRenderable(db) && Step(db, event, next)
    ensures Evolves(db, next)
  {
    hide DayError, BatchError, CommitItems, RollbackAll, PutAll, Put, ReviewChange;
    match event {
      case SaveDay(key, status, note, segments, version, actor) =>
        ValidDayRenderable(key.date, status, segments);
        PutEvolves(db, key, Day(Content(status, Manual, None, Text.TrimSpace(note), segments), actor),
                   if key in db.days then ManualUpdate else ManualCreate, None, actor);
      case SaveBatch(user, dates, status, note, segments, actor) =>
        FineDatesRenderable(dates, status, segments);
        PutAllEvolves(db, user, dates, Day(Content(status, Manual, None, note, segments), actor), actor);
      case CommitImport(jobId, expected, actor) =>
        if db.jobs[jobId].state != Completed {
          CommitItemsEvolve(db, db.jobs[jobId], jobId, ByDate(db.jobs[jobId].items, ItemDate), actor);
        }
      case RollbackImport(jobId, actor) =>
        if db.jobs[jobId].state != RolledBack {
          var writes := ByDate(WritesOf(db.revisions, jobId), RevisionDate);
          RollbackAllEvolves(db, db.jobs[jobId].target, jobId, writes, actor);
        }
      case ChangeJob(jobId, job) =>
    }
  }

  lemma {:induction false} RunEvolves(run: seq<Db>, i: nat, j: nat)
    requires Run(run) && i <= j < |run|
    ensures Evolves(run[i], run[j])
    decreases j - i
  {
    hide Inv, Step;
    if i < j {
      RunEvolves(run, i, j - 1);
      assert Next(run[j - 1], run[j - 1 + 1]);
      var event :| Step(run[j - 1], event, run[j]);
      StepEvolves(run[j - 1], event, run[j]);
      EvolvesTransitive(run[i], run[j - 1], run[j]);
    }
  }

  // ----- what runs guarantee

  /** A row identity with a version never names two contents, nor two days. */
  lemma VersionNamesOneContent(run: seq<Db>, i: nat, j: nat, a: Key, b: Key)
    requires Run(run) && i <= j < |run| && a in run[i].days && b in run[j].days
    requires run[i].days[a].id == run[j].days[b].id && run[i].days[a].version == run[j].days[b].version
    ensures a == b && run[i].days[a] == run[j].days[b]
  {
    InvAlways(run, i);
    RunEvolves(run, i, j);
    assert RowEvolves(run[i], b, run[j].days[b]);
  }

  /** What a preview recorded about the day of an item when it was made. */
  ghost predicate AnchoredTo(db: Db, key: Key, item: Item) {
    key in db.days && item.anchorId == Some(db.days[key].id) && item.anchorVersion == Some(db.days[key].version)
  }

  /** A commit overwrites a day only while it is exactly the day the preview saw, and creates
      a day only where there is none. */
  lemma CommitOverwritesOnlySeen(run: seq<Db>, i: nat, j: nat, jobId: nat, expected: nat, actor: nat, item: Item)
    requires Run(run) && i <= j < |run| && jobId in run[j].jobs && run[j].jobs[jobId].state == NeedsReview
    requires RowsRenderable(run[j]) && Commit(run[j], jobId, expected, actor).Ok?
    requires item in run[j].jobs[jobId].items && Considered(item)
    ensures var key := Key(run[j].jobs[jobId].target, item.date);
            if item.anchorId.None? then key !in run[j].days
            else AnchoredTo(run[i], key, item) ==> key in run[j].days && run[j].days[key] == run[i].days[key]
  {
    hide Run, Commit, Inv, CommitOutcome, Considered;
    var job := run[j].jobs[jobId];
    var key := Key(job.target, item.date);
    InvAlways(run, j);
    CommitEffect(run[j], jobId, expected, actor);
    var k :| 0 <= k < |job.items| && job.items[k] == item;
    assert ItemFine(run[j], job, jobId, job.items[k], actor);
    if AnchoredTo(run[i], key, item) {
      VersionNamesOneContent(run, i, j, key, key);
    }
  }

  /** When rollback's check passes, the day is the very row the import left, however many
      transactions ran in between. */
  lemma RollbackMeetsOwnWrite(run: seq<Db>, i: nat, j: nat, jobId: nat, r: Revision)
    requires Run(run) && i <= j < |run|
    requires jobId in run[i].jobs && run[i].jobs[jobId].state == Completed && WriteOf(run[i], jobId, r)
    requires jobId in run[j].jobs && run[j].jobs[jobId].state == Completed && WriteOf(run[j], jobId, r)
    requires StillOwned(run[i], WriteKey(r), r, jobId)
    requires StillOwned(run[j], WriteKey(r), r, jobId)
    ensures run[j].days[WriteKey(r)] == run[i].days[WriteKey(r)]
    ensures r.after.Some? && run[j].days[WriteKey(r)].content == DayFromStored(r.after.value).content
  {
    hide Run, Inv;
    InvAlways(run, i);
    InvAlways(run, j);
    VersionTellsOwner(run[i], jobId, r);
    VersionTellsOwner(run[j], jobId, r);
    VersionNamesOneContent(run, i, j, WriteKey(r), WriteKey(r));
  }

  /** The record a commit leaves for a written item. */
  lemma CommitLeavesRecord(db: Db, jobId: nat, expected: nat, actor: nat, item: Item) returns (k: nat)
    requires Inv(db) && RowsRenderable(db) && jobId in db.jobs && db.jobs[jobId].state == NeedsReview
    requires Commit(db, jobId, expected, actor).Ok? && item in db.jobs[jobId].items && TakenOver(item)
    ensures var next := Commit(db, jobId, expected, actor).value;
            k < |next.revisions| && jobId in next.jobs && next.jobs[jobId].state == Completed
            && WriteKey(next.revisions[k]) == Key(db.jobs[jobId].target, item.date)
            && WriteOf(next, jobId, next.revisions[k])
            && StillOwned(next, WriteKey(next.revisions[k]), next.revisions[k], jobId)
  {
    hide Commit, Inv, TakenOver, ItemOutcome, StoredFromDay, StillOwned, SameElsewhere, IsImportWrite;
    var job := db.jobs[jobId];
    var next := Commit(db, jobId, expected, actor).value;
    CommitEffect(db, jobId, expected, actor);
    var n :| 0 <= n < |job.items| && job.items[n] == item;
    assert Recorded(db, next, Key(job.target, job.items[n].date));
    k :| |db.revisions| <= k < |next.revisions| && WriteKey(next.revisions[k]) == Key(job.target, item.date);
    assert Record(db, next, job.target, jobId, Dates(job.items), next.revisions[k]);
  }

  /** A write whose rollback goes through later is still the row it was. */
  lemma RecordStandsLater(run: seq<Db>, i: nat, j: nat, jobId: nat, k: nat, undoer: nat)
    requires Run(run) && i <= j < |run| && RowsRenderable(run[j]) && k < |run[i].revisions|
    requires jobId in run[i].jobs && run[i].jobs[jobId].state == Completed
             && WriteOf(run[i], jobId, run[i].revisions[k])
    requires StillOwned(run[i], WriteKey(run[i].revisions[k]), run[i].revisions[k], jobId)
    requires jobId in run[j].jobs && run[j].jobs[jobId].state == Completed && Rollback(run[j], jobId, undoer).Ok?
    ensures var key := WriteKey(run[i].revisions[k]);
            key in run[j].days && key in run[i].days && run[j].days[key] == run[i].days[key]
  {
    hide Run, Rollback, Inv, RowEvolves;
    var w := run[i].revisions[k];
    InvAlways(run, i);
    InvAlways(run, j);
    RunEvolves(run, i, j);
    var later := run[j].revisions[k];
    assert later == w || later == w.(dayId := None);
    assert WriteOf(run[j], jobId, later);
    RollbackEffect(run[j], jobId, undoer);
    VersionTellsOwner(run[i], jobId, w);
    VersionTellsOwner(run[j], jobId, later);
    VersionNamesOneContent(run, i, j, WriteKey(w), WriteKey(w));
  }

  /** If a rollback goes through, every day its commit wrote is still the very row that commit
      left, however many transactions ran in between. */
  lemma RollbackUndoesThatCommit(run: seq<Db>, i: nat, j: nat, jobId: nat, expected: nat, actor: nat, undoer: nat,
      item: Item)
    requires Run(run) && i < j < |run| && RowsRenderable(run[i]) && RowsRenderable(run[j])
    requires jobId in run[i].jobs && run[i].jobs[jobId].state == NeedsReview
    requires Step(run[i], CommitImport(jobId, expected, actor), run[i + 1])
    requires item in run[i].jobs[jobId].items && TakenOver(item)
    requires jobId in run[j].jobs && run[j].jobs[jobId].state == Completed && Rollback(run[j], jobId, undoer).Ok?
    ensures var key := Key(run[i].jobs[jobId].target, item.date);
            key in run[j].days && key in run[i + 1].days && run[j].days[key] == run[i + 1].days[key]
  {
    hide Run, Commit, Rollback, Inv, TakenOver, StillOwned, WriteOf;
    InvAlways(run, i);
    var k := CommitLeavesRecord(run[i], jobId, expected, actor, item);
    RecordStandsLater(run, i + 1, j, jobId, k, undoer);
  }
}
