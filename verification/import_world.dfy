/** The whole import side as one machine: the queue of jobs and the ledger over one table of
    jobs and preview items, and what a person can rely on from preview to commit. */
module ImportWorld {
  import opened Common
  import opened Snapshots
  import opened Review
  import opened ImportQueue
  import opened ImportQueueInvariant
  import opened ImportQueueRuns
  import opened ImportSystem
  import Ledger
  import LedgerInvariant
  import LedgerOutcomes
  import LedgerJobs
  import LedgerRuns

  datatype World = World(sys: System, db: Ledger.Db)

  /** A step of the queue's side, or a transaction of the ledger's. */
  datatype Deed = QueueDeed(action: Action) | LedgerDeed(event: LedgerRuns.Event)

  /** The rows of import_jobs and import_items, which both sides share. */
  function SharedRows(jobs: map<nat, Job>): map<nat, ReviewJob> {
    map id | id in jobs :: jobs[id].review
  }

  ghost predicate Joined(w: World) {
    w.db.jobs == SharedRows(w.sys.jobs)
  }

  /** The queue's side after a transaction of the ledger rewrote the shared rows. */
  function WithRows(sys: System, rows: map<nat, ReviewJob>): System {
    sys.(jobs := map id | id in sys.jobs && id in rows :: sys.jobs[id].(review := rows[id]))
  }

  /** Events of the job protocol that only the ledger's transactions bring about. */
  predicate OfLedger(event: Event) {
    event.CommitReview? || event.RollBackReview? || event.UnanchorItems?
  }

  ghost predicate WorldStep(w: World, now: nat, deed: Deed, next: World)
    requires Ledger.RowsRenderable(w.db)
  {
    match deed
    case QueueDeed(action) =>
      !(action.JobStep? && OfLedger(action.event)) && Step(w.sys, now, action, next.sys)
      && next.db == w.db.(jobs := SharedRows(next.sys.jobs))
    case LedgerDeed(event) =>
      !event.ChangeJob? && LedgerRuns.Step(w.db, event, next.db) && next.sys == WithRows(w.sys, next.db.jobs)
  }

  ghost predicate WorldInv(w: World) {
    SysInv(w.sys) && LedgerInvariant.Inv(w.db) && Joined(w)
  }

  lemma WorldRenderable(w: World)
    requires WorldInv(w)
    ensures Ledger.RowsRenderable(w.db)
  {
    hide SysInv, LedgerInvariant.Inv, Joined;
    LedgerOutcomes.InvRenderable(w.db);
  }

  lemma WorldJob(w: World, id: nat)
    requires WorldInv(w) && id in w.sys.jobs
    ensures JobInv(w.sys.jobs[id]) && TasksOk(w.sys) && id in w.db.jobs && w.db.jobs[id] == w.sys.jobs[id].review
  {
    hide JobInv, TasksOk, LedgerInvariant.Inv;
  }

  lemma SameJobs(w: World, id: nat)
    requires Joined(w)
    ensures id in w.sys.jobs <==> id in w.db.jobs
  {
  }

  // ----- the ledger's side of a step

  /** A transaction that finds its work done, or an edit that edits nothing. */
  lemma IdleStep(db: Ledger.Db, id: nat) returns (event: LedgerRuns.Event)
    requires Ledger.RowsRenderable(db) && id in db.jobs && OneItemPerDate(db.jobs[id].items)
    ensures LedgerRuns.Step(db, event, db)
  {
    hide Ledger.CommitItems, Ledger.RollbackAll, OneItemPerDate;
    var state := db.jobs[id].state;
    if state == Completed {
      event := LedgerRuns.CommitImport(id, 0, 0);
    } else if state == RolledBack {
      event := LedgerRuns.RollbackImport(id, 0);
    } else {
      event := LedgerRuns.ChangeJob(id, db.jobs[id]);
      assert db.jobs[id := db.jobs[id]] == db.jobs;
    }
  }

  lemma OneRowChanged(w: World, id: nat, job: Job)
    requires Joined(w)
    ensures SharedRows(w.sys.jobs[id := job]) == w.db.jobs[id := job.review]
    ensures id in w.sys.jobs && job.review == w.sys.jobs[id].review ==>
              SharedRows(w.sys.jobs[id := job]) == w.db.jobs
  {
  }

  lemma NoItems()
    ensures OneItemPerDate([])
  {
  }

  lemma NewRowChange(db: Ledger.Db, id: nat, job: Job)
    requires id !in db.jobs && job.review.state !in {Completed, RolledBack} && OneItemPerDate(job.review.items)
    ensures LedgerInvariant.ReviewChange(db, id, job.review)
  {
    hide OneItemPerDate;
  }

  /** To the ledger every step of the world is one of its own. */
  lemma LedgerSide(w: World, now: nat, deed: Deed, next: World) returns (event: LedgerRuns.Event)
    requires WorldInv(w) && Ledger.RowsRenderable(w.db) && WorldStep(w, now, deed, next)
    ensures LedgerRuns.Step(w.db, event, next.db)
  {
    hide WorldInv, Joined, JobInv, Apply, LedgerRuns.Step, SharedRows, TaskID, OneItemPerDate;
    WorldJoined(w);
    match deed {
      case LedgerDeed(e) => event := e;
      case QueueDeed(action) =>
        match action {
          case CreateAI(id, key, _, _, target, source, maxRounds) =>
            SameJobs(w, id);
            if key in w.sys.keys {
              KnownKey(w, key);
              event := IdleOn(w, w.sys.keys[key].job);
            } else {
              NoItems();
              event := NewRow(w, id, NewAIJob(target, source, maxRounds, now));
            }
          case Upload(id, _, _, target, source, items) =>
            SameJobs(w, id);
            event := NewRow(w, id, NewSpreadsheetJob(target, source, items));
          case QueueAccepts(id, token, heard) =>
            OneRowChanged(w, id, next.sys.jobs[id]);
            event := IdleOn(w, id);
          case QueueConflicts(id, token) =>
            OneRowChanged(w, id, next.sys.jobs[id]);
            event := IdleOn(w, id);
          case JobStep(id, e) =>
            event := JobRow(w, now, id, e);
        }
    }
  }

  lemma WorldJoined(w: World)
    requires WorldInv(w)
    ensures Joined(w) && w.db == w.db.(jobs := SharedRows(w.sys.jobs))
  {
    hide SysInv, LedgerInvariant.Inv;
  }

  lemma KnownKey(w: World, key: IdemKey)
    requires WorldInv(w) && key in w.sys.keys
    ensures w.sys.keys[key].job in w.sys.jobs
  {
    hide JobInv, TasksOk, LedgerInvariant.Inv;
  }

  lemma IdleOn(w: World, id: nat) returns (event: LedgerRuns.Event)
    requires WorldInv(w) && Ledger.RowsRenderable(w.db) && id in w.sys.jobs
    ensures LedgerRuns.Step(w.db, event, w.db)
  {
    hide WorldInv, JobInv, OneItemPerDate, LedgerRuns.Step;
    WorldJob(w, id);
    InvItems(w.sys.jobs[id]);
    event := IdleStep(w.db, id);
  }

  lemma NewRow(w: World, id: nat, job: Job) returns (event: LedgerRuns.Event)
    requires Joined(w) && Ledger.RowsRenderable(w.db) && id !in w.db.jobs
    requires job.review.state !in {Completed, RolledBack} && OneItemPerDate(job.review.items)
    ensures LedgerRuns.Step(w.db, event, w.db.(jobs := SharedRows(w.sys.jobs[id := job])))
  {
    hide Joined, OneItemPerDate, SharedRows;
    NewRowChange(w.db, id, job);
    OneRowChanged(w, id, job);
    event := LedgerRuns.ChangeJob(id, job.review);
  }

  lemma JobRow(w: World, now: nat, id: nat, e: Event) returns (event: LedgerRuns.Event)
    requires WorldInv(w) && Ledger.RowsRenderable(w.db) && id in w.sys.jobs && !OfLedger(e)
    requires Apply(w.sys.jobs[id], now, e).Some?
    ensures LedgerRuns.Step(w.db, event,
                            w.db.(jobs := SharedRows(w.sys.jobs[id := Apply(w.sys.jobs[id], now, e).value])))
  {
    hide WorldInv, Joined, JobInv, Apply, OneItemPerDate, SharedRows, LedgerInvariant.ReviewChange;
    WorldJob(w, id);
    WorldJoined(w);
    var job := Apply(w.sys.jobs[id], now, e).value;
    OneRowChanged(w, id, job);
    QueueStepIsReviewChange(w.db, id, w.sys.jobs[id], now, e);
    if job.review == w.sys.jobs[id].review {
      event := IdleOn(w, id);
    } else {
      event := LedgerRuns.ChangeJob(id, job.review);
    }
  }

  // ----- the queue's side of a step

  /** A job after a list of events at one moment. */
  ghost function Played(job: Job, now: nat, events: seq<Event>): Option<Job> {
    if events == [] then Some(job)
    else match Played(job, now, events[..|events| - 1])
      case None => None
      case Some(mid) => Apply(mid, now, events[|events| - 1])
  }

  lemma PlayedOne(job: Job, now: nat, event: Event)
    ensures Played(job, now, [event]) == Apply(job, now, event)
  {
    hide Apply;
    assert [event][..0] == [];
  }

  lemma PlayedMore(job: Job, now: nat, events: seq<Event>, event: Event)
    requires Played(job, now, events).Some?
    ensures Played(job, now, events + [event]) == Apply(Played(job, now, events).value, now, event)
  {
    hide Apply;
    assert (events + [event])[..|events|] == events;
  }

  /** The deletions of a rollback as events of a job. */
  function Deletions(rows: seq<nat>): (events: seq<Event>)
    ensures |events| == |rows| && forall i :: 0 <= i < |rows| ==> events[i] == UnanchorItems(rows[i])
  {
    seq(|rows|, i requires 0 <= i < |rows| => UnanchorItems(rows[i]))
  }

  lemma DeletionsLast(rows: seq<nat>)
    requires rows != []
    ensures var n := |rows| - 1; Deletions(rows) == Deletions(rows[..n]) + [UnanchorItems(rows[n])]
  {
  }

  lemma {:induction false} DeletionsPlayed(job: Job, now: nat, rows: seq<nat>)
    ensures Played(job, now, Deletions(rows)) == Some(UnanchorEach(job, now, rows))
  {
    hide Apply, Played, Deletions;
    if rows == [] {
      NoDeletions();
      PlayedNone(job, now);
    } else {
      var init, last := rows[..|rows| - 1], rows[|rows| - 1];
      DeletionsPlayed(job, now, init);
      DeletionsLast(rows);
      PlayedMore(job, now, Deletions(init), UnanchorItems(last));
      UnanchorForm(UnanchorEach(job, now, init), now, last);
    }
  }

  lemma NoDeletions()
    ensures Deletions([]) == []
  {
  }

  /** The protocol's job differs from before only in its shared row. */
  lemma RowOnly(w: World, next: World, id: nat)
    requires next.sys == WithRows(w.sys, next.db.jobs) && id in w.sys.jobs && id in next.db.jobs
    ensures id in next.sys.jobs && next.sys.jobs[id] == w.sys.jobs[id].(review := next.db.jobs[id])
  {
  }

  /** What a transaction of the ledger does to one job, as events of its protocol. */
  lemma LedgerDeedPlayed(w: World, now: nat, event: LedgerRuns.Event, next: World, id: nat) returns (events: seq<Event>)
    requires WorldInv(w) && Ledger.RowsRenderable(w.db) && WorldStep(w, now, LedgerDeed(event), next)
    requires id in w.sys.jobs
    ensures id in next.sys.jobs && Played(w.sys.jobs[id], now, events) == Some(next.sys.jobs[id])
  {
    hide WorldInv, Joined, JobInv, Apply, SysInv, TasksOk, LedgerInvariant.Inv, Ledger.Save, Ledger.Batch,
         Ledger.Commit, Ledger.Rollback;
    WorldJoined(w);
    LedgerHolds(w);
    match event {
      case SaveDay(key, status, note, segments, version, actor) =>
        events := [];
        LedgerJobs.SaveLeavesJobs(w.db, key, status, note, segments, version, actor);
        RowOnly(w, next, id);
      case SaveBatch(user, dates, status, note, segments, actor) =>
        events := [];
        LedgerJobs.BatchLeavesJobs(w.db, user, dates, status, note, segments, actor);
        RowOnly(w, next, id);
      case CommitImport(jobId, expected, actor) =>
        events := CommitPlayed(w, now, jobId, expected, actor, next, id);
      case RollbackImport(jobId, actor) =>
        events := RollbackPlayed(w, now, jobId, actor, next, id);
    }
  }

  lemma LedgerHolds(w: World)
    requires WorldInv(w)
    ensures LedgerInvariant.Inv(w.db)
  {
    hide SysInv, LedgerInvariant.Inv, Joined;
  }

  lemma CommitPlayed(w: World, now: nat, jobId: nat, expected: nat, actor: nat, next: World, id: nat)
    returns (events: seq<Event>)
    requires LedgerInvariant.Inv(w.db) && Ledger.RowsRenderable(w.db) && Joined(w) && id in w.sys.jobs
    requires Ledger.Commit(w.db, jobId, expected, actor) == Ok(next.db) && next.sys == WithRows(w.sys, next.db.jobs)
    ensures id in next.sys.jobs && Played(w.sys.jobs[id], now, events) == Some(next.sys.jobs[id])
  {
    hide Joined, LedgerInvariant.Inv, Ledger.Commit, LedgerOutcomes.AllFine, WithRows, Apply;
    LedgerRuns.CommitFindsJob(w.db, jobId, expected, actor);
    RowOfJob(w, id);
    RowOfJob(w, jobId);
    var job := w.sys.jobs[jobId];
    CommitAgrees(w.db, jobId, job, expected, actor);
    RowOnly(w, next, id);
    if id == jobId && job.review.state != Completed {
      events := [CommitReview(expected)];
      PlayedOne(job, now, CommitReview(expected));
      CommitForm(job, now, expected);
    } else {
      events := [];
    }
  }

  lemma CommitForm(job: Job, now: nat, expected: nat)
    ensures Apply(job, now, CommitReview(expected)) == CommitJob(job, expected)
    ensures CommitJob(job, expected).Some? ==>
              CommitJob(job, expected).value == job.(review := CommitJob(job, expected).value.review)
  {
  }

  lemma RowOfJob(w: World, id: nat)
    requires Joined(w)
    ensures id in w.sys.jobs <==> id in w.db.jobs
    ensures id in w.sys.jobs ==> w.db.jobs[id] == w.sys.jobs[id].review
  {
  }

  lemma RollbackPlayed(w: World, now: nat, jobId: nat, actor: nat, next: World, id: nat) returns (events: seq<Event>)
    requires LedgerInvariant.Inv(w.db) && Ledger.RowsRenderable(w.db) && Joined(w) && id in w.sys.jobs
    requires Ledger.Rollback(w.db, jobId, actor) == Ok(next.db) && next.sys == WithRows(w.sys, next.db.jobs)
    ensures id in next.sys.jobs && Played(w.sys.jobs[id], now, events) == Some(next.sys.jobs[id])
  {
    hide Joined, LedgerInvariant.Inv, Ledger.Rollback, LedgerOutcomes.UntouchedSince, LedgerJobs.RowsGone, WithRows,
         Apply, UnanchorEach, Played;
    LedgerJobs.RollbackNamesJob(w.db, jobId, actor);
    RowOfJob(w, id);
    RowOfJob(w, jobId);
    RollbackAgrees(w.db, jobId, w.sys.jobs[jobId], actor);
    if w.db.jobs[jobId].state == RolledBack {
      events := [];
      RowOnly(w, next, id);
      PlayedNone(w.sys.jobs[id], now);
    } else {
      var job := w.sys.jobs[id];
      RollbackNeedsCompleted(w.sys.jobs[jobId]);
      var rows := RollbackIsUnanchoring(w.db, jobId, id, job, now, actor);
      RowOnly(w, next, id);
      DeletionsPlayed(job, now, rows);
      UnanchorEachLoosens(job, now, rows, set r | r in rows);
      events := Deletions(rows);
      if id == jobId {
        var left := UnanchorEach(job, now, rows);
        PlayedMore(job, now, events, RollBackReview);
        RollBackForm(left, now);
        events := events + [RollBackReview];
      }
    }
  }

  lemma PlayedNone(job: Job, now: nat)
    ensures Played(job, now, []) == Some(job)
  {
  }

  lemma RollbackNeedsCompleted(job: Job)
    requires RollBackJob(job).Some?
    ensures job.review.state == Completed
  {
  }

  lemma RollBackForm(job: Job, now: nat)
    ensures Apply(job, now, RollBackReview) == RollBackJob(job)
    ensures RollBackJob(job).Some? ==> RollBackJob(job).value == job.(review := RollBackJob(job).value.review)
  {
  }

  /** To each job a step of the world is a list of steps of its protocol; a step of the queue's
      side is at most one, the very event it carries. */
  lemma QueueSide(w: World, now: nat, deed: Deed, next: World, id: nat) returns (events: seq<Event>)
    requires WorldInv(w) && Ledger.RowsRenderable(w.db) && WorldStep(w, now, deed, next) && id in w.sys.jobs
    ensures id in next.sys.jobs && Played(w.sys.jobs[id], now, events) == Some(next.sys.jobs[id])
    ensures deed.QueueDeed? ==>
              events == if EventOf(deed.action, id).Some? then [EventOf(deed.action, id).value] else []
  {
    hide WorldInv, Joined, JobInv, Apply, SysInv, TasksOk, LedgerRuns.Step, Step, Played;
    match deed {
      case LedgerDeed(event) => events := LedgerDeedPlayed(w, now, event, next, id);
      case QueueDeed(action) =>
        WorldJob(w, id);
        StepProjects(w.sys, now, action, next.sys, id);
        var e := EventOf(action, id);
        if e.Some? {
          events := [e.value];
          PlayedOne(w.sys.jobs[id], now, e.value);
        } else {
          events := [];
          PlayedNone(w.sys.jobs[id], now);
        }
    }
  }

  // ----- the invariant

  lemma {:induction false} PlayedKeepsInv(job: Job, now: nat, events: seq<Event>)
    requires JobInv(job) && Played(job, now, events).Some?
    ensures JobInv(Played(job, now, events).value)
  {
    hide JobInv, Apply;
    if events != [] {
      var init := events[..|events| - 1];
      PlayedKeepsInv(job, now, init);
      ApplyKeepsInv(Played(job, now, init).value, now, events[|events| - 1]);
    }
  }

  lemma StepKeepsWorld(w: World, now: nat, deed: Deed, next: World)
    requires WorldInv(w) && Ledger.RowsRenderable(w.db) && WorldStep(w, now, deed, next)
    ensures WorldInv(next)
  {
    hide LedgerInvariant.Inv, SysInv, LedgerRuns.Step, Step, Joined, SharedRows, WithRows;
    var event := LedgerSide(w, now, deed, next);
    LedgerRuns.StepKeepsInv(w.db, event, next.db);
    match deed {
      case QueueDeed(action) =>
        ImportSystem.StepKeepsInv(w.sys, now, action, next.sys);
        RowsJoined(w, next);
      case LedgerDeed(e) =>
        LedgerDeedKeepsSystem(w, now, e, next);
    }
  }

  lemma RowsJoined(w: World, next: World)
    requires next.db == w.db.(jobs := SharedRows(next.sys.jobs))
    ensures Joined(next)
  {
  }

  lemma LedgerDeedKeepsSystem(w: World, now: nat, event: LedgerRuns.Event, next: World)
    requires WorldInv(w) && Ledger.RowsRenderable(w.db) && WorldStep(w, now, LedgerDeed(event), next)
    ensures SysInv(next.sys) && Joined(next)
  {
    hide WorldInv, JobInv, LedgerRuns.Step, Apply, TaskID, Played, SysInv, Joined;
    LedgerHolds(w);
    LedgerKeepsKeys(w.db, event, next.db);
    WorldJoined(w);
    SystemParts(w);
    forall id | id in w.sys.jobs
      ensures id in next.sys.jobs && JobInv(next.sys.jobs[id]) && next.sys.jobs[id].sent == w.sys.jobs[id].sent
    {
      var events := QueueSide(w, now, LedgerDeed(event), next, id);
      WorldJob(w, id);
      PlayedKeepsInv(w.sys.jobs[id], now, events);
    }
    FollowedSystem(w, next);
  }

  lemma SystemParts(w: World)
    requires WorldInv(w)
    ensures SysInv(w.sys)
  {
    hide SysInv, LedgerInvariant.Inv, Joined;
  }

  lemma FollowedSystem(w: World, next: World)
    requires SysInv(w.sys) && Joined(w)
    requires next.sys == WithRows(w.sys, next.db.jobs) && next.db.jobs.Keys == w.db.jobs.Keys
    requires forall id :: id in w.sys.jobs ==> id in next.sys.jobs && JobInv(next.sys.jobs[id])
    requires forall id :: id in w.sys.jobs ==> next.sys.jobs[id].sent == w.sys.jobs[id].sent
    ensures SysInv(next.sys) && Joined(next)
  {
    hide JobInv, TaskID;
    assert forall id :: id in next.db.jobs <==> id in w.db.jobs;
    assert forall id :: id in next.sys.jobs <==> id in w.sys.jobs;
    assert next.db.jobs == SharedRows(next.sys.jobs);
  }

  lemma LedgerKeepsKeys(db: Ledger.Db, event: LedgerRuns.Event, next: Ledger.Db)
    requires LedgerInvariant.Inv(db) && Ledger.RowsRenderable(db)
    requires LedgerRuns.Step(db, event, next) && !event.ChangeJob?
    ensures next.jobs.Keys == db.jobs.Keys
  {
    hide LedgerInvariant.Inv, Ledger.Save, Ledger.Batch, Ledger.Commit, Ledger.Rollback;
    match event {
      case SaveDay(key, status, note, segments, version, actor) =>
        LedgerJobs.SaveLeavesJobs(db, key, status, note, segments, version, actor);
      case SaveBatch(user, dates, status, note, segments, actor) =>
        LedgerJobs.BatchLeavesJobs(db, user, dates, status, note, segments, actor);
      case CommitImport(jobId, expected, actor) =>
        LedgerJobs.CommitKeepsKeys(db, jobId, expected, actor);
      case RollbackImport(jobId, actor) =>
        LedgerJobs.RollbackKeepsKeys(db, jobId, actor);
    }
  }

}
