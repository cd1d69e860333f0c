/** The ledger over whole runs: which rows stay, which saves and which items a version still
    names, and what a deleted row lets through. */
module LedgerHistory {
  import opened Common
  import opened DateOrder
  import opened ScheduleDomain
  import opened Snapshots
  import opened Review
  import opened Ledger
  import opened LedgerInvariant
  import opened LedgerOutcomes
  import opened LedgerJobs
  import opened LedgerRuns
  import opened Text

  // ----- rows that stay

  /** A row that is still there is the same row at no lower version, and from version 2 on no
      transaction can delete it. */
  ghost predicate RowStays(db: Db, next: Db, key: Key)
    requires key in db.days
  {
    (key in next.days ==>
       next.days[key].id == db.days[key].id && next.days[key].version >= db.days[key].version)
    && (db.days[key].version >= 2 ==> key in next.days)
  }

  lemma CommitKeepsRow(db: Db, jobId: nat, expected: nat, actor: nat, key: Key)
    requires Inv(db) && RowsRenderable(db) && key in db.days && Commit(db, jobId, expected, actor).Ok?
    ensures RowStays(db, Commit(db, jobId, expected, actor).value, key)
  {
    hide Inv, TakenContent, ReadBack, KeepReferences, Records, TakenOver;
    var job := db.jobs[jobId];
    if job.state == NeedsReview {
      hide Commit;
      CommitEffect(db, jobId, expected, actor);
      var next := Commit(db, jobId, expected, actor).value;
      if key.user == job.target && key.date in Dates(job.items) {
        var i :| 0 <= i < |job.items| && job.items[i].date == key.date;
        assert ItemOutcome(db, next, job, jobId, job.items[i], actor);
      } else {
        assert SameAt(db, next, key);
      }
    }
  }

  /** A rollback deletes a day only at the version the import created it with. */
  lemma RollbackKeepsRow(db: Db, jobId: nat, actor: nat, key: Key)
    requires Inv(db) && RowsRenderable(db) && key in db.days && Rollback(db, jobId, actor).Ok?
    ensures RowStays(db, Rollback(db, jobId, actor).value, key)
  {
    hide RollbackAll, ReadBack, KeepReferences, DayFromStored;
    if db.jobs[jobId].state == Completed {
      hide Rollback;
      RollbackEffect(db, jobId, actor);
      if WrittenBy(db, jobId, key) {
        var r :| WriteOf(db, jobId, r) && WriteKey(r) == key;
        var i :| 0 <= i < |db.revisions| && db.revisions[i] == r;
        assert WriteOk(db, States(db), r);
      }
    }
  }

  lemma StepKeepsRow(db: Db, event: Event, next: Db, key: Key)
    requires Inv(db) && RowsRenderable(db) && Step(db, event, next) && key in db.days
    ensures RowStays(db, next, key)
  {
    hide Inv, Save, Batch, Commit, Rollback, ReviewChange, ReadBack, KeepReferences;
    match event {
      case SaveDay(k, status, note, segments, version, actor) =>
        SaveEffect(db, k, status, note, segments, version, actor);
        assert k == key || SameAt(db, next, key);
      case SaveBatch(user, dates, status, note, segments, actor) =>
        BatchEffect(db, user, dates, status, note, segments, actor);
        assert !(key.user == user && key.date in DateSet(dates)) ==> SameAt(db, next, key);
      case CommitImport(jobId, expected, actor) =>
        CommitKeepsRow(db, jobId, expected, actor, key);
      case RollbackImport(jobId, actor) =>
        RollbackKeepsRow(db, jobId, actor, key);
      case ChangeJob(_, _) =>
    }
  }

  /** The last step of a stretch of a run. */
  lemma LastStep(run: seq<Db>, j: nat) returns (event: Event)
    requires Run(run) && 0 < j < |run|
    ensures Inv(run[j - 1]) && RowsRenderable(run[j - 1]) && Step(run[j - 1], event, run[j])
  {
    hide Inv, Step;
    InvAlways(run, j - 1);
    assert Next(run[j - 1], run[j - 1 + 1]);
    event :| Step(run[j - 1], event, run[j]);
  }

  /** While a day is there it is one row, and its version never falls. */
  lemma {:induction false} PresentRowIsOne(run: seq<Db>, i: nat, j: nat, key: Key)
    requires Run(run) && i <= j < |run| && forall k :: i <= k <= j ==> key in run[k].days
    ensures run[j].days[key].id == run[i].days[key].id && run[j].days[key].version >= run[i].days[key].version
    decreases j - i
  {
    hide Inv, Step, Run;
    if i < j {
      PresentRowIsOne(run, i, j - 1, key);
      var event := LastStep(run, j);
      StepKeepsRow(run[j - 1], event, run[j], key);
    }
  }

  /** A row that has been changed once since it was made is never deleted again. */
  lemma {:induction false} RowsAtTwoStay(run: seq<Db>, i: nat, j: nat, key: Key)
    requires Run(run) && i <= j < |run| && key in run[i].days && run[i].days[key].version >= 2
    ensures forall k :: i <= k <= j ==> key in run[k].days
    ensures run[j].days[key].id == run[i].days[key].id && run[j].days[key].version >= run[i].days[key].version
    decreases j - i
  {
    hide Inv, Step, Run;
    if i < j {
      RowsAtTwoStay(run, i, j - 1, key);
      var event := LastStep(run, j);
      StepKeepsRow(run[j - 1], event, run[j], key);
    }
  }

  // ----- saves that name a version

  /** No version of a day is saved over twice: two successful saves of one day that name the
      same version are the same save. */
  lemma OneSavePerVersion(run: seq<Db>, i: nat, j: nat, a: Event, b: Event)
    requires Run(run) && i <= j && j + 1 < |run| && RowsRenderable(run[i]) && RowsRenderable(run[j])
    requires a.SaveDay? && b.SaveDay? && a.key == b.key && a.version == b.version > 0
    requires Step(run[i], a, run[i + 1]) && Step(run[j], b, run[j + 1])
    ensures i == j
  {
    hide Run, Inv, Save;
    SaveEffect(run[i], a.key, a.status, a.note, a.segments, a.version, a.actor);
    SaveEffect(run[j], b.key, b.status, b.note, b.segments, b.version, b.actor);
    InvAlways(run, i);
    SavedRowIsLater(run[i], a.key);
    if i < j {
      RowsAtTwoStay(run, i + 1, j, a.key);
    }
  }

  lemma SavedRowIsLater(db: Db, key: Key)
    requires Inv(db) && key in db.days
    ensures db.days[key].version >= 1 && db.days[key].id < db.nextRow
  {
  }

  /** What a save overwrites is what its client saw exactly when the day was there all the
      time, which is exactly when it is still the row the client saw; from version 2 on it
      always is. */
  lemma SaveOverwritesOnlySeen(run: seq<Db>, i: nat, j: nat, save: Event)
    requires Run(run) && i <= j && j + 1 < |run| && RowsRenderable(run[j])
    requires save.SaveDay? && save.key in run[i].days && save.version == run[i].days[save.key].version
    requires Step(run[j], save, run[j + 1])
    ensures save.key in run[j].days
    ensures run[j].days[save.key] == run[i].days[save.key] <==>
            forall k :: i <= k <= j ==> save.key in run[k].days
    ensures run[j].days[save.key] == run[i].days[save.key] <==>
            run[j].days[save.key].id == run[i].days[save.key].id
    ensures save.version >= 2 ==> run[j].days[save.key] == run[i].days[save.key]
  {
    hide Run, Inv, Save, Step;
    var key := save.key;
    InvAlways(run, i);
    SavedRowIsLater(run[i], key);
    SaveNamesRow(run[j], save, run[j + 1]);
    if run[j].days[key].id == run[i].days[key].id {
      VersionNamesOneContent(run, i, j, key, key);
      forall k | i <= k <= j ensures key in run[k].days {
        RunEvolves(run, i, k);
        RunEvolves(run, k, j);
        assert RowEvolves(run[k], key, run[j].days[key]);
      }
    } else if forall k :: i <= k <= j ==> key in run[k].days {
      PresentRowIsOne(run, i, j, key);
    }
    if save.version >= 2 {
      RowsAtTwoStay(run, i, j, key);
    }
  }

  lemma SaveNamesRow(db: Db, save: Event, next: Db)
    requires RowsRenderable(db) && save.SaveDay? && Step(db, save, next) && save.version > 0
    ensures save.key in db.days && db.days[save.key].version == save.version
  {
    hide Save;
    SaveEffect(db, save.key, save.status, save.note, save.segments, save.version, save.actor);
  }

  // ----- jobs that stay

  /** A job keeps its owner, its review version never falls, and while it stands still the
      items are the same save anchors whose row was deleted. */
  ghost predicate JobEvolves(was: ReviewJob, now: ReviewJob) {
    now.target == was.target && was.reviewVersion <= now.reviewVersion
    && (was.reviewVersion == now.reviewVersion ==> SameButAnchors(was.items, now.items))
  }

  ghost predicate JobsEvolve(db: Db, next: Db) {
    next.shifts == db.shifts && forall j :: j in db.jobs ==> j in next.jobs && JobEvolves(db.jobs[j], next.jobs[j])
  }

  lemma JobsEvolveTransitive(a: Db, b: Db, c: Db)
    requires JobsEvolve(a, b) && JobsEvolve(b, c)
    ensures JobsEvolve(a, c)
  {
    forall j | j in a.jobs ensures j in c.jobs && JobEvolves(a.jobs[j], c.jobs[j]) {
      assert JobEvolves(a.jobs[j], b.jobs[j]) && JobEvolves(b.jobs[j], c.jobs[j]);
    }
  }

  lemma LoosenedJobEvolves(was: ReviewJob, now: ReviewJob, gone: set<nat>)
    requires JobFollows(was, now, gone)
    ensures JobEvolves(was, now)
  {
  }

  lemma CommitEvolvesJobs(db: Db, jobId: nat, expected: nat, actor: nat)
    requires Inv(db) && RowsRenderable(db) && Commit(db, jobId, expected, actor).Ok?
    ensures JobsEvolve(db, Commit(db, jobId, expected, actor).value)
  {
    hide CommitItems, CommitOutcome, Inv, AllFine;
    if db.jobs[jobId].state == NeedsReview {
      CommitItemsKeepJobs(db, db.jobs[jobId], jobId, ByDate(db.jobs[jobId].items, ItemDate), actor);
      CommitEffect(db, jobId, expected, actor);
      OutcomeKeepsShifts(db, Commit(db, jobId, expected, actor).value, db.jobs[jobId], jobId,
                         db.jobs[jobId].items, actor);
    }
  }

  lemma OutcomeKeepsShifts(db: Db, next: Db, job: ReviewJob, jobId: nat, items: seq<Item>, actor: nat)
    requires RowsRenderable(db) && CommitOutcome(db, next, job, jobId, items, actor)
    ensures next.shifts == db.shifts
  {
    hide ItemOutcome, SameElsewhere, Records;
  }

  lemma RollbackEvolvesJobs(db: Db, jobId: nat, actor: nat)
    requires Inv(db) && RowsRenderable(db) && Rollback(db, jobId, actor).Ok?
    ensures JobsEvolve(db, Rollback(db, jobId, actor).value)
  {
    hide RollbackAll, JobFollows, JobEvolves, RowsGone;
    if db.jobs[jobId].state == Completed {
      RollbackLoosens(db, jobId, actor);
      RollbackKeepsShifts(db, jobId, actor);
      hide Rollback, Inv;
      var next := Rollback(db, jobId, actor).value;
      var reopened := next.jobs[jobId := next.jobs[jobId].(state := Completed)];
      forall j | j in db.jobs ensures j in next.jobs && JobEvolves(db.jobs[j], next.jobs[j]) {
        assert j in reopened.Keys && JobFollows(db.jobs[j], reopened[j], RowsGone(db, next));
        LoosenedJobEvolves(db.jobs[j], reopened[j], RowsGone(db, next));
        StateIsNoMatter(db.jobs[j], next.jobs[j], Completed);
      }
    } else {
      forall j | j in db.jobs ensures JobEvolves(db.jobs[j], db.jobs[j]) {
        StaysAsItIs(db.jobs[j]);
      }
    }
  }

  lemma StateIsNoMatter(was: ReviewJob, now: ReviewJob, state: JobState)
    ensures JobEvolves(was, now) <==> JobEvolves(was, now.(state := state))
  {
  }

  lemma StaysAsItIs(job: ReviewJob)
    ensures JobEvolves(job, job)
  {
  }

  lemma RollbackKeepsShifts(db: Db, jobId: nat, actor: nat)
    requires Inv(db) && RowsRenderable(db) && Rollback(db, jobId, actor).Ok?
    ensures Rollback(db, jobId, actor).value.shifts == db.shifts
  {
    hide RollbackAll, Inv, ByDate, WritesOf, SameElsewhere, Undone, AllAttached;
    if db.jobs[jobId].state == Completed {
      var writes := ByDate(WritesOf(db.revisions, jobId), RevisionDate);
      RollbackList(db, jobId);
      RollbackAllOutcome(db, db.jobs[jobId].target, jobId, writes, actor);
    }
  }

  lemma StepEvolvesJobs(db: Db, event: Event, next: Db)
    requires Inv(db) && RowsRenderable(db) && Step(db, event, next)
    ensures JobsEvolve(db, next)
  {
    hide Inv, DayError, BatchError, PutAll, Commit, Rollback, RowAfterWrite, PutRecord, RowWritten, SameElsewhere;
    match event {
      case SaveDay(_, _, _, _, _, _) =>
      case SaveBatch(user, dates, status, note, segments, actor) =>
        FineDatesRenderable(dates, status, segments);
        var day := Day(Content(status, Manual, None, note, segments), actor);
        PutAllKeepsJobs(db, user, dates, day, actor);
        BatchEffect(db, user, dates, status, note, segments, actor);
      case CommitImport(jobId, expected, actor) =>
        CommitEvolvesJobs(db, jobId, expected, actor);
      case RollbackImport(jobId, actor) =>
        RollbackEvolvesJobs(db, jobId, actor);
      case ChangeJob(_, _) =>
    }
  }

  /** An import job never goes away, and over any stretch of a run its review version names one
      list of items, up to anchors whose row was deleted. */
  lemma {:induction false} RunEvolvesJobs(run: seq<Db>, i: nat, j: nat)
    requires Run(run) && i <= j < |run|
    ensures JobsEvolve(run[i], run[j])
    decreases j - i
  {
    hide Inv, Step, Run;
    if i < j {
      hide JobsEvolve;
      RunEvolvesJobs(run, i, j - 1);
      var event := LastStep(run, j);
      StepEvolvesJobs(run[j - 1], event, run[j]);
      JobsEvolveTransitive(run[i], run[j - 1], run[j]);
    }
  }

  // ----- references never dangle

  /** What a write stores refers only to jobs and shifts that are there. */
  ghost predicate Fresh(db: Db, next: Db, key: Key)
    requires key in next.days
  {
    SameAt(db, next, key) || exists c: Content :: next.days[key].content == ReadBack(KeepReferences(db, c))
  }

  lemma CommitStoresKept(db: Db, jobId: nat, expected: nat, actor: nat, key: Key)
    requires Inv(db) && RowsRenderable(db) && Commit(db, jobId, expected, actor).Ok?
    requires key in Commit(db, jobId, expected, actor).value.days
    ensures Fresh(db, Commit(db, jobId, expected, actor).value, key)
  {
    hide Inv, ReadBack, KeepReferences, Records, TakenContent, AllFine, CommitItems;
    var job := db.jobs[jobId];
    if job.state == NeedsReview {
      hide Commit;
      CommitEffect(db, jobId, expected, actor);
      var next := Commit(db, jobId, expected, actor).value;
      if key.user == job.target && key.date in Dates(job.items) {
        var i :| 0 <= i < |job.items| && job.items[i].date == key.date;
        assert ItemOutcome(db, next, job, jobId, job.items[i], actor);
        if TakenOver(job.items[i]) {
          var c := TakenContent(job, jobId, job.items[i]);
          assert next.days[key].content == ReadBack(KeepReferences(db, c));
        }
      } else {
        assert SameAt(db, next, key);
      }
    }
  }

  lemma RollbackStoresKept(db: Db, jobId: nat, actor: nat, key: Key)
    requires Inv(db) && RowsRenderable(db) && Rollback(db, jobId, actor).Ok?
    requires key in Rollback(db, jobId, actor).value.days
    ensures Fresh(db, Rollback(db, jobId, actor).value, key)
  {
    hide Inv, ReadBack, KeepReferences, RollbackAll, DayFromStored;
    if db.jobs[jobId].state == Completed {
      hide Rollback;
      RollbackEffect(db, jobId, actor);
      if WrittenBy(db, jobId, key) {
        var r :| WriteOf(db, jobId, r) && WriteKey(r) == key;
        var c := DayFromStored(r.before.value).content;
        assert Rollback(db, jobId, actor).value.days[key].content == ReadBack(KeepReferences(db, c));
      }
    }
  }

  lemma StepStoresKept(db: Db, event: Event, next: Db, key: Key)
    requires Inv(db) && RowsRenderable(db) && Step(db, event, next) && key in next.days
    ensures Fresh(db, next, key)
  {
    hide Inv, Save, Batch, Commit, Rollback, ReviewChange, ReadBack, KeepReferences;
    match event {
      case SaveDay(k, status, note, segments, version, actor) =>
        SaveEffect(db, k, status, note, segments, version, actor);
        if k == key {
          var c := Content(status, Manual, None, TrimSpace(note), segments);
          assert next.days[key].content == ReadBack(KeepReferences(db, c));
        } else {
          assert SameAt(db, next, key);
        }
      case SaveBatch(user, dates, status, note, segments, actor) =>
        BatchEffect(db, user, dates, status, note, segments, actor);
        if key.user == user && key.date in DateSet(dates) {
          var c := Content(status, Manual, None, note, segments);
          assert next.days[key].content == ReadBack(KeepReferences(db, c));
        } else {
          assert SameAt(db, next, key);
        }
      case CommitImport(jobId, expected, actor) =>
        CommitStoresKept(db, jobId, expected, actor, key);
      case RollbackImport(jobId, actor) =>
        RollbackStoresKept(db, jobId, actor, key);
      case ChangeJob(_, _) =>
    }
  }

  /** A content all of whose references exist is stored as it is. */
  lemma KeptWhenPresent(db: Db, c: Content)
    requires c.sourceImportId.Some? ==> c.sourceImportId.value in db.jobs
    requires ShiftsKnown(db, c.segments)
    ensures KeepReferences(db, c) == c
  {
    assert KeepShifts(c.segments, db.shifts) == c.segments;
  }

  lemma KeptIsPresent(db: Db, c: Content)
    ensures var kept := ReadBack(KeepReferences(db, c));
            ShiftsKnown(db, kept.segments) && (kept.sourceImportId.Some? ==> kept.sourceImportId.value in db.jobs)
  {
    var kept := KeepShifts(c.segments, db.shifts);
    var plain := PlainAll(kept);
    InOrderIsOrdered(plain);
    var stored := InOrder(plain);
    forall i | 0 <= i < |stored| && stored[i].shiftId.Some? ensures stored[i].shiftId.value in db.shifts {
      assert stored[i] in plain;
      var k :| 0 <= k < |plain| && plain[k] == stored[i];
      assert plain[k] == Plain(kept[k]) && kept[k] == KeepShift(c.segments[k], db.shifts);
    }
  }

  lemma PresentWhenKept(db: Db, c: Content)
    requires KeepReferences(db, c) == c
    ensures ShiftsKnown(db, c.segments) && (c.sourceImportId.Some? ==> c.sourceImportId.value in db.jobs)
  {
    forall i | 0 <= i < |c.segments| && c.segments[i].shiftId.Some? ensures c.segments[i].shiftId.value in db.shifts {
      assert KeepShifts(c.segments, db.shifts)[i] == KeepShift(c.segments[i], db.shifts);
    }
  }

  lemma StepKeepsReferences(db: Db, event: Event, next: Db)
    requires Inv(db) && RowsRenderable(db) && Step(db, event, next) && ReferencesPresent(db)
    ensures ReferencesPresent(next)
  {
    hide Inv, Step, KeepReferences, ReadBack, ShiftsKnown;
    StepEvolvesJobs(db, event, next);
    forall key | key in next.days ensures KeepReferences(next, next.days[key].content) == next.days[key].content {
      StepStoresKept(db, event, next, key);
      var c := next.days[key].content;
      if SameAt(db, next, key) {
        PresentWhenKept(db, c);
      } else {
        var was: Content :| c == ReadBack(KeepReferences(db, was));
        KeptIsPresent(db, was);
      }
      KnownLater(db, next, c.segments);
      KeptWhenPresent(next, c);
    }
  }

  lemma KnownLater(db: Db, next: Db, segments: seq<Segment>)
    requires ShiftsKnown(db, segments) && next.shifts == db.shifts
    ensures ShiftsKnown(next, segments)
  {
  }

  /** In every run from a ledger nobody has written, no stored day refers to an import job or
      a shift that is not there. */
  lemma {:induction false} ReferencesAlways(run: seq<Db>, i: nat)
    requires Run(run) && Empty(run[0]) && i < |run|
    ensures ReferencesPresent(run[i])
  {
    hide Inv, Step, Run, KeepReferences;
    if i > 0 {
      hide ReferencesPresent;
      ReferencesAlways(run, i - 1);
      var event := LastStep(run, i);
      StepKeepsReferences(run[i - 1], event, run[i]);
    }
  }

  /** At any moment of such a run a commit can be taken back at once, and then every day is as
      it was. */
  lemma CommitTakenBack(run: seq<Db>, i: nat, jobId: nat, expected: nat, actor: nat, undoer: nat)
    requires Run(run) && Empty(run[0]) && i < |run| && RowsRenderable(run[i])
    requires jobId in run[i].jobs && run[i].jobs[jobId].state == NeedsReview
    requires Commit(run[i], jobId, expected, actor).Ok?
    ensures RowsRenderable(Commit(run[i], jobId, expected, actor).value)
    ensures var undone := Rollback(Commit(run[i], jobId, expected, actor).value, jobId, undoer);
            undone.Ok?
            && forall key: Key :: BackAsItWas(run[i], undone.value, key, WrittenDate(run[i].jobs[jobId], key))
  {
    hide Run, Commit, Rollback, BackAsItWas, Inv, ReferencesPresent;
    InvAlways(run, i);
    ReferencesAlways(run, i);
    CommitThenRollback(run[i], jobId, expected, actor, undoer);
  }
}
