/** Whole runs of the import side: they are runs of the ledger, and runs of every job's
    protocol, so what is proved of either holds of both together. */
module ImportWorldRuns {
  import opened Common
  import opened Snapshots
  import opened Review
  import opened ImportQueue
  import opened ImportQueueInvariant
  import opened ImportSystem
  import opened ImportWorld
  import ImportQueueRuns
  import Ledger
  import LedgerInvariant
  import LedgerOutcomes
  import LedgerRuns
  import PreviewAnchors

  datatype History = History(states: seq<World>, deeds: seq<(nat, Deed)>)

  ghost predicate Moves(run: History, i: nat)
    requires |run.states| == |run.deeds| + 1 && i < |run.deeds|
  {
    Ledger.RowsRenderable(run.states[i].db)
    && WorldStep(run.states[i], run.deeds[i].0, run.deeds[i].1, run.states[i + 1])
  }

  /** Any interleaving of workers, dispatchers, clean-up, people and ledger transactions while
      the clock does not run backwards. */
  ghost predicate ValidHistory(run: History) {
    |run.states| == |run.deeds| + 1 && WorldInv(run.states[0])
    && (forall i :: 0 <= i < |run.deeds| ==> Moves(run, i))
    && forall i, k :: 0 <= i < k < |run.deeds| ==> run.deeds[i].0 <= run.deeds[k].0
  }

  /** Nothing created, nothing written. */
  lemma FreshWorld(shifts: set<nat>)
    ensures WorldInv(World(System(map[], map[], map[]), Ledger.Db(map[], [], map[], shifts, 0)))
  {
    hide JobInv;
    LedgerRuns.EmptyHasInv(Ledger.Db(map[], [], map[], shifts, 0));
  }

  /** The invariants of both sides, and their agreement on jobs and items, hold always. */
  lemma {:induction false} WorldAlways(run: History, i: nat)
    requires ValidHistory(run) && i < |run.states|
    ensures WorldInv(run.states[i]) && Ledger.RowsRenderable(run.states[i].db)
  {
    hide WorldInv, WorldStep;
    if i > 0 {
      WorldAlways(run, i - 1);
      assert Moves(run, i - 1);
      StepKeepsWorld(run.states[i - 1], run.deeds[i - 1].0, run.deeds[i - 1].1, run.states[i]);
    }
    WorldRenderable(run.states[i]);
  }

  // ----- as a run of the ledger

  ghost function Ledgers(run: History): (dbs: seq<Ledger.Db>)
    ensures |dbs| == |run.states| && forall i :: 0 <= i < |dbs| ==> dbs[i] == run.states[i].db
  {
    seq(|run.states|, i requires 0 <= i < |run.states| => run.states[i].db)
  }

  /** The tables of days, revisions and jobs go through a run of the ledger. */
  lemma LedgerView(run: History)
    requires ValidHistory(run)
    ensures LedgerRuns.Run(Ledgers(run))
  {
    hide WorldInv, WorldStep, LedgerRuns.Step, LedgerInvariant.Inv;
    var dbs := Ledgers(run);
    LedgerHolds(run.states[0]);
    forall i | 0 <= i < |dbs| - 1 ensures LedgerRuns.Next(dbs[i], dbs[i + 1]) {
      WorldAlways(run, i);
      assert Moves(run, i);
      var event := LedgerSide(run.states[i], run.deeds[i].0, run.deeds[i].1, run.states[i + 1]);
    }
  }

  // ----- as a run of one job's protocol

  lemma {:induction false} JobsStay(run: History, i: nat, k: nat, id: nat)
    requires ValidHistory(run) && i <= k < |run.states| && id in run.states[i].sys.jobs
    ensures id in run.states[k].sys.jobs
    decreases k - i
  {
    hide WorldInv, WorldStep, Played;
    if i < k {
      JobsStay(run, i, k - 1, id);
      WorldAlways(run, k - 1);
      assert Moves(run, k - 1);
      var events := QueueSide(run.states[k - 1], run.deeds[k - 1].0, run.deeds[k - 1].1, run.states[k], id);
    }
  }

  ghost predicate NotAfter(trace: ImportQueueRuns.Trace, now: nat) {
    forall m :: 0 <= m < |trace.moments| ==> trace.moments[m].now <= now
  }

  ghost predicate Prolongs(trace: ImportQueueRuns.Trace, longer: ImportQueueRuns.Trace) {
    trace.jobs <= longer.jobs && trace.moments <= longer.moments
  }

  /** Events played at the end of a trace. */
  lemma {:induction false} Prolonged(trace: ImportQueueRuns.Trace, now: nat, events: seq<Event>)
    returns (longer: ImportQueueRuns.Trace)
    requires ImportQueueRuns.ValidTrace(trace) && NotAfter(trace, now)
    requires Played(trace.jobs[|trace.moments|], now, events).Some?
    ensures ImportQueueRuns.ValidTrace(longer) && NotAfter(longer, now) && Prolongs(trace, longer)
    ensures |longer.moments| == |trace.moments| + |events|
    ensures longer.jobs[|longer.moments|] == Played(trace.jobs[|trace.moments|], now, events).value
    ensures forall k :: 0 <= k < |events| ==>
              longer.moments[|trace.moments| + k] == ImportQueueRuns.Moment(now, Some(events[k]))
    decreases |events|
  {
    hide Apply, JobInv;
    if events == [] {
      longer := trace;
    } else {
      var n := |events| - 1;
      var shorter := Prolonged(trace, now, events[..n]);
      var mid := shorter.jobs[|shorter.moments|];
      var moment := ImportQueueRuns.Moment(now, Some(events[n]));
      longer := OneMore(shorter, moment, Apply(mid, now, events[n]).value);
    }
  }

  lemma OneMore(trace: ImportQueueRuns.Trace, moment: ImportQueueRuns.Moment, next: Job)
    returns (longer: ImportQueueRuns.Trace)
    requires ImportQueueRuns.ValidTrace(trace) && NotAfter(trace, moment.now)
    requires ImportQueueRuns.Happens(trace.jobs[|trace.moments|], moment, next)
    ensures ImportQueueRuns.ValidTrace(longer) && NotAfter(longer, moment.now)
    ensures longer == ImportQueueRuns.Trace(trace.jobs + [next], trace.moments + [moment])
  {
    hide ImportQueueRuns.Happens, JobInv;
    longer := ImportQueueRuns.Trace(trace.jobs + [next], trace.moments + [moment]);
    var n := |trace.moments|;
    forall i | 0 <= i < |longer.moments|
      ensures ImportQueueRuns.Happens(longer.jobs[i], longer.moments[i], longer.jobs[i + 1])
    {
      if i < n {
        assert ImportQueueRuns.Happens(trace.jobs[i], trace.moments[i], trace.jobs[i + 1]);
      }
    }
  }

  /** The trace passes through the job's states of the history, from `from` to `until`, at the
      positions `at`, and a step of the queue's side is the one moment between two of them. */
  ghost predicate PassesThrough(run: History, from: nat, until: nat, id: nat, trace: ImportQueueRuns.Trace,
      at: seq<nat>)
    requires |run.states| == |run.deeds| + 1
  {
    from <= until < |run.states| && |at| == until - from + 1 && at[0] == 0
    && |trace.jobs| == |trace.moments| + 1 && at[until - from] == |trace.moments|
    && (forall k, l :: 0 <= k <= l < |at| ==> at[k] <= at[l])
    && (forall k :: 0 <= k < |at| ==> StandsAt(run, from + k, id, trace, at[k]))
    && forall k :: 0 <= k < until - from ==> OwnMoment(run, from + k, id, trace, at[k], at[k + 1])
  }

  ghost predicate StandsAt(run: History, k: nat, id: nat, trace: ImportQueueRuns.Trace, position: nat)
    requires k < |run.states|
  {
    position < |trace.jobs| && id in run.states[k].sys.jobs && trace.jobs[position] == run.states[k].sys.jobs[id]
  }

  ghost predicate OwnMoment(run: History, k: nat, id: nat, trace: ImportQueueRuns.Trace, before: nat, after: nat)
    requires k < |run.deeds|
  {
    run.deeds[k].1.QueueDeed? && EventOf(run.deeds[k].1.action, id).Some? ==>
      after == before + 1 && before < |trace.moments|
      && trace.moments[before] == ImportQueueRuns.Moment(run.deeds[k].0, EventOf(run.deeds[k].1.action, id))
  }

  /** Seen from one job a history is a run of the job protocol. */
  lemma {:induction false} QueueView(run: History, from: nat, until: nat, id: nat)
    returns (trace: ImportQueueRuns.Trace, at: seq<nat>)
    requires ValidHistory(run) && from <= until < |run.states| && id in run.states[from].sys.jobs
    ensures ImportQueueRuns.ValidTrace(trace) && PassesThrough(run, from, until, id, trace, at)
    ensures from == until ==> trace.moments == []
    ensures from < until ==> NotAfter(trace, run.deeds[until - 1].0)
    decreases until - from
  {
    hide WorldInv, WorldStep, Played, JobInv, ImportQueueRuns.Happens, EventOf;
    if from == until {
      WorldAlways(run, from);
      WorldJob(run.states[from], id);
      trace, at := ImportQueueRuns.Trace([run.states[from].sys.jobs[id]], []), [0];
    } else {
      var shorter, marks := QueueView(run, from, until - 1, id);
      var now, deed := run.deeds[until - 1].0, run.deeds[until - 1].1;
      WorldAlways(run, until - 1);
      assert Moves(run, until - 1);
      var events := QueueSide(run.states[until - 1], now, deed, run.states[until], id);
      assert marks[until - 1 - from] == |shorter.moments|;
      assert NotAfter(shorter, now);
      assert StandsAt(run, from + (until - 1 - from), id, shorter, marks[until - 1 - from]);
      trace := Prolonged(shorter, now, events);
      at := marks + [|trace.moments|];
      OneFurther(run, from, until, id, shorter, trace, marks, now, events);
    }
  }

  /** The trace grows by one step of the history. */
  lemma OneFurther(run: History, from: nat, until: nat, id: nat, shorter: ImportQueueRuns.Trace,
      trace: ImportQueueRuns.Trace, marks: seq<nat>, now: nat, events: seq<Event>)
    requires |run.states| == |run.deeds| + 1 && from < until < |run.states| && now == run.deeds[until - 1].0
    requires PassesThrough(run, from, until - 1, id, shorter, marks) && Prolongs(shorter, trace)
    requires |trace.jobs| == |trace.moments| + 1 && |trace.moments| == |shorter.moments| + |events|
    requires id in run.states[until].sys.jobs && trace.jobs[|trace.moments|] == run.states[until].sys.jobs[id]
    requires run.deeds[until - 1].1.QueueDeed? ==>
               events == if EventOf(run.deeds[until - 1].1.action, id).Some?
                         then [EventOf(run.deeds[until - 1].1.action, id).value] else []
    requires forall k :: 0 <= k < |events| ==>
               trace.moments[|shorter.moments| + k] == ImportQueueRuns.Moment(now, Some(events[k]))
    ensures PassesThrough(run, from, until, id, trace, marks + [|trace.moments|])
  {
    hide EventOf, OwnMoment, StandsAt, Prolongs;
    var at := marks + [|trace.moments|];
    var n := until - 1 - from;
    PrefixKept(shorter, trace);
    forall k | 0 <= k < until - from ensures OwnMoment(run, from + k, id, trace, at[k], at[k + 1]) {
      if k < n {
        assert OwnMoment(run, from + k, id, shorter, marks[k], marks[k + 1]);
        MomentKept(run, from + k, id, shorter, trace, marks[k], marks[k + 1]);
      } else {
        assert at[n] == |shorter.moments|;
        LastMoment(run, until - 1, id, trace, |shorter.moments|, events);
      }
    }
    forall k | 0 <= k < |at| ensures StandsAt(run, from + k, id, trace, at[k]) {
      if k <= n {
        assert StandsAt(run, from + k, id, shorter, marks[k]);
        StillStands(run, from + k, id, shorter, trace, marks[k]);
      } else {
        assert from + k == until;
        EndStands(run, until, id, trace);
      }
    }
    forall k, l | 0 <= k <= l < |at| ensures at[k] <= at[l] {
      assert k <= n ==> marks[k] <= marks[n];
    }
  }

  lemma StillStands(run: History, k: nat, id: nat, shorter: ImportQueueRuns.Trace, trace: ImportQueueRuns.Trace,
      position: nat)
    requires k < |run.states| && StandsAt(run, k, id, shorter, position) && |shorter.jobs| <= |trace.jobs|
    requires forall m :: 0 <= m < |shorter.jobs| ==> trace.jobs[m] == shorter.jobs[m]
    ensures StandsAt(run, k, id, trace, position)
  {
  }

  lemma EndStands(run: History, k: nat, id: nat, trace: ImportQueueRuns.Trace)
    requires k < |run.states| && |trace.jobs| == |trace.moments| + 1 && id in run.states[k].sys.jobs
    requires trace.jobs[|trace.moments|] == run.states[k].sys.jobs[id]
    ensures StandsAt(run, k, id, trace, |trace.moments|)
  {
  }

  lemma PrefixKept(shorter: ImportQueueRuns.Trace, trace: ImportQueueRuns.Trace)
    requires Prolongs(shorter, trace)
    ensures |shorter.jobs| <= |trace.jobs| && |shorter.moments| <= |trace.moments|
    ensures forall m :: 0 <= m < |shorter.jobs| ==> trace.jobs[m] == shorter.jobs[m]
    ensures forall m :: 0 <= m < |shorter.moments| ==> trace.moments[m] == shorter.moments[m]
  {
  }

  lemma MomentKept(run: History, k: nat, id: nat, shorter: ImportQueueRuns.Trace, trace: ImportQueueRuns.Trace,
      before: nat, after: nat)
    requires k < |run.deeds| && OwnMoment(run, k, id, shorter, before, after)
    requires |shorter.moments| <= |trace.moments|
    requires forall m :: 0 <= m < |shorter.moments| ==> trace.moments[m] == shorter.moments[m]
    ensures OwnMoment(run, k, id, trace, before, after)
  {
    hide EventOf;
  }

  lemma LastMoment(run: History, k: nat, id: nat, trace: ImportQueueRuns.Trace, before: nat, events: seq<Event>)
    requires k < |run.deeds| && |trace.moments| == before + |events|
    requires run.deeds[k].1.QueueDeed? ==>
               events == if EventOf(run.deeds[k].1.action, id).Some?
                         then [EventOf(run.deeds[k].1.action, id).value] else []
    requires forall m :: 0 <= m < |events| ==>
               trace.moments[before + m] == ImportQueueRuns.Moment(run.deeds[k].0, Some(events[m]))
    ensures OwnMoment(run, k, id, trace, before, |trace.moments|)
  {
    hide EventOf;
    if run.deeds[k].1.QueueDeed? && EventOf(run.deeds[k].1.action, id).Some? {
      assert trace.moments[before + 0] == ImportQueueRuns.Moment(run.deeds[k].0, Some(events[0]));
    }
  }

  // ----- what both sides guarantee together

  /** A worker's preview is its own to the end: from its claim to the write that puts the job
      under review, through whatever the ledger and everybody else did in between, the job was
      never out of its hands. */
  lemma PreviewIsFenced(run: History, c: nat, s: nat, id: nat, generation: nat, token: nat, attempt: nat, ttl: nat,
      items: seq<Item>)
    requires ValidHistory(run) && c < s < |run.deeds| && id in run.states[c].sys.jobs
    requires run.deeds[c].1 == QueueDeed(JobStep(id, Claim(generation, token, attempt, ttl)))
    requires id in run.states[c + 1].sys.jobs && Owns(run.states[c + 1].sys.jobs[id], token)
    requires run.deeds[s].1 == QueueDeed(JobStep(id, Complete(token, items)))
    ensures forall k :: c < k <= s ==>
              id in run.states[k].sys.jobs && Owns(run.states[k].sys.jobs[id], token)
              && run.states[k].sys.jobs[id].generation == run.states[c + 1].sys.jobs[id].generation
              && run.states[k].sys.jobs[id].attemptCount == run.states[c + 1].sys.jobs[id].attemptCount
  {
    hide Moves, Owns, ImportQueueRuns.ValidTrace;
    var trace, at := QueueView(run, c, s + 1, id);
    assert OwnMoment(run, c + 0, id, trace, at[0], at[0 + 1]);
    assert OwnMoment(run, c + (s - c), id, trace, at[s - c], at[s - c + 1]);
    ImportQueueRuns.Fencing(trace, 0, at[s - c], token);
    forall k | c < k <= s
      ensures id in run.states[k].sys.jobs && Owns(run.states[k].sys.jobs[id], token)
      ensures run.states[k].sys.jobs[id].generation == run.states[c + 1].sys.jobs[id].generation
      ensures run.states[k].sys.jobs[id].attemptCount == run.states[c + 1].sys.jobs[id].attemptCount
    {
      assert StandsAt(run, c + (k - c), id, trace, at[k - c]) && StandsAt(run, c + 1, id, trace, at[1]);
      assert at[1] <= at[k - c] <= at[s - c];
    }
  }

  /** From preview to ledger. A preview compared an item with the stored days at `made`; the
      item was on show at `seen`; a commit at `j` named the version it was shown under and went
      through. Then the day it met is the one compared with, unless the item has lost the anchor
      of a deleted row; the draft on show is what the day holds afterwards if the decision says
      so, and otherwise the day stands. An item that has no say over its day (uncertain, invalid,
      missing, skipped or without a draft) leaves it as it is, and in every case the job is
      completed. */
  lemma ShownIsCommitted(run: History, made: nat, seen: nat, j: nat, id: nat, actor: nat, n: nat)
    requires ValidHistory(run) && made <= seen <= j < |run.deeds|
    requires id in run.states[seen].sys.jobs && n < |run.states[seen].sys.jobs[id].review.items|
    requires PreviewAnchors.Anchored(run.states[made].db, run.states[seen].sys.jobs[id].review.target,
                                     run.states[seen].sys.jobs[id].review.items[n])
    requires run.deeds[j].1 ==
             LedgerDeed(LedgerRuns.CommitImport(id, run.states[seen].sys.jobs[id].review.reviewVersion, actor))
    requires id in run.states[j].sys.jobs && run.states[j].sys.jobs[id].review.state == NeedsReview
    ensures id in run.states[j + 1].sys.jobs && run.states[j + 1].sys.jobs[id].review.state == Completed
    ensures n < |run.states[j].sys.jobs[id].review.items|
    ensures var shown, job := run.states[seen].sys.jobs[id].review.items[n], run.states[j].sys.jobs[id].review;
            var key := Ledger.Key(job.target, shown.date);
            var db, next := run.states[j].db, run.states[j + 1].db;
            (job.items[n] == shown || job.items[n] == shown.(anchorId := None))
            && ((shown.kind == New || shown.kind == Same || shown.kind == Conflict) && shown.draft.Some?
                && shown.decision != Some(Skip) ==>
                  (LedgerOutcomes.SameAt(run.states[made].db, db, key) <==>
                   (job.items[n].anchorVersion.Some? ==> job.items[n].anchorId.Some?)))
            && if (shown.kind == New || shown.kind == Conflict) && shown.draft.Some?
                  && (shown.decision == None || shown.decision == Some(UseImported)) then
                 key in next.days
                 && next.days[key].content ==
                    ReadBack(Ledger.KeepReferences(db, LedgerOutcomes.TakenContent(job, id, shown)))
               else LedgerOutcomes.SameAt(db, next, key)
  {
    hide WorldInv, WorldStep, LedgerRuns.Run, LedgerInvariant.Inv, Ledger.Commit, PreviewAnchors.Anchored,
         LedgerOutcomes.SameAt, LedgerOutcomes.TakenContent;
    var version := run.states[seen].sys.jobs[id].review.reviewVersion;
    WorldAlways(run, seen);
    WorldAlways(run, j);
    WorldJob(run.states[seen], id);
    WorldJob(run.states[j], id);
    CommitHappened(run, j, id, version, actor);
    LedgerView(run);
    var dbs := Ledgers(run);
    if LedgerOutcomes.Considered(run.states[seen].sys.jobs[id].review.items[n]) {
      PreviewAnchors.PreviewStandsAtCommit(dbs, made, seen, j, id, actor, n);
    }
    PreviewAnchors.CommitSeesReviewedItem(dbs, seen, j, id, actor, n);
    LedgerHolds(run.states[j]);
    ItemCommitted(run.states[j].db, run.states[j + 1].db, id, version, actor, n,
                  run.states[seen].sys.jobs[id].review.items[n]);
    CommittedJob(run, j, id, version, actor);
  }

  lemma CommitHappened(run: History, j: nat, id: nat, version: nat, actor: nat)
    requires ValidHistory(run) && j < |run.deeds|
    requires run.deeds[j].1 == LedgerDeed(LedgerRuns.CommitImport(id, version, actor))
    ensures Ledger.RowsRenderable(run.states[j].db)
    ensures Ledger.Commit(run.states[j].db, id, version, actor) == Ok(run.states[j + 1].db)
    ensures run.states[j + 1].sys == WithRows(run.states[j].sys, run.states[j + 1].db.jobs)
  {
    hide WorldInv, Ledger.Commit, WithRows;
    assert Moves(run, j);
  }

  /** What a commit leaves on the day of one item. */
  lemma ItemCommitted(db: Ledger.Db, next: Ledger.Db, id: nat, version: nat, actor: nat, n: nat, shown: Item)
    requires LedgerInvariant.Inv(db) && Ledger.RowsRenderable(db) && id in db.jobs && db.jobs[id].state == NeedsReview
    requires Ledger.Commit(db, id, version, actor) == Ok(next) && n < |db.jobs[id].items|
    requires db.jobs[id].items[n] == shown || db.jobs[id].items[n] == shown.(anchorId := None)
    ensures var job := db.jobs[id];
            var key := Ledger.Key(job.target, shown.date);
            if LedgerOutcomes.TakenOver(shown) then
              key in next.days
              && next.days[key].content ==
                 ReadBack(Ledger.KeepReferences(db, LedgerOutcomes.TakenContent(job, id, shown)))
            else LedgerOutcomes.SameAt(db, next, key)
  {
    hide LedgerInvariant.Inv, Ledger.Commit, LedgerOutcomes.Records, LedgerOutcomes.SameElsewhere, DayFromStored,
         ReadBack, Ledger.KeepReferences;
    LedgerOutcomes.CommitEffect(db, id, version, actor);
    assert LedgerOutcomes.ItemOutcome(db, next, db.jobs[id], id, db.jobs[id].items[n], actor);
  }

  lemma CommittedJob(run: History, j: nat, id: nat, version: nat, actor: nat)
    requires ValidHistory(run) && j < |run.deeds| && id in run.states[j].sys.jobs
    requires run.deeds[j].1 == LedgerDeed(LedgerRuns.CommitImport(id, version, actor))
    requires run.states[j].sys.jobs[id].review.state == NeedsReview
    ensures id in run.states[j + 1].sys.jobs && run.states[j + 1].sys.jobs[id].review.state == Completed
  {
    hide WorldInv, WorldStep, Ledger.Commit, WithRows, LedgerInvariant.Inv, LedgerOutcomes.CommitOutcome,
         LedgerOutcomes.AllFine;
    WorldAlways(run, j);
    WorldJob(run.states[j], id);
    LedgerHolds(run.states[j]);
    CommitHappened(run, j, id, version, actor);
    LedgerOutcomes.CommitEffect(run.states[j].db, id, version, actor);
    RowOnly(run.states[j], run.states[j + 1], id);
  }

  predicate Closed(job: Job) {
    job.review.state == Completed || job.review.state == RolledBack
  }

  lemma {:induction false} PlayedStaysClosed(job: Job, now: nat, events: seq<Event>)
    requires Closed(job) && Played(job, now, events).Some?
    ensures Closed(Played(job, now, events).value)
    ensures (forall k :: 0 <= k < |events| ==> !OfLedger(events[k])) ==>
              Played(job, now, events).value.review == job.review
  {
    hide Apply, OfLedger, Closed;
    if events != [] {
      var init, last := events[..|events| - 1], events[|events| - 1];
      PlayedStaysClosed(job, now, init);
      StaysClosed(Played(job, now, init).value, now, last);
    }
  }

  lemma StaysClosed(job: Job, now: nat, event: Event)
    requires Closed(job) && Apply(job, now, event).Some?
    ensures Closed(Apply(job, now, event).value)
    ensures !OfLedger(event) ==> Apply(job, now, event).value.review == job.review
  {
    if OfLedger(event) {
      LedgerEventOnClosed(job, now, event);
    } else {
      hide Apply;
      StepStaysOpen(job, now, event);
    }
  }

  lemma LedgerEventOnClosed(job: Job, now: nat, event: Event)
    requires Closed(job) && OfLedger(event) && Apply(job, now, event).Some?
    ensures Closed(Apply(job, now, event).value)
  {
  }

  /** A committed job is settled: afterwards it is completed or rolled back for ever, and no
      worker, message, clean-up or edit touches its state, items or version again. */
  lemma {:induction false} CommittedForGood(run: History, i: nat, k: nat, id: nat)
    requires ValidHistory(run) && i <= k < |run.states|
    requires id in run.states[i].sys.jobs && Closed(run.states[i].sys.jobs[id])
    ensures id in run.states[k].sys.jobs && Closed(run.states[k].sys.jobs[id])
    ensures forall m :: i <= m < k && run.deeds[m].1.QueueDeed? ==>
              id in run.states[m].sys.jobs && id in run.states[m + 1].sys.jobs
              && run.states[m + 1].sys.jobs[id].review == run.states[m].sys.jobs[id].review
    decreases k - i
  {
    hide WorldInv, WorldStep, Played, Closed, EventOf, OfLedger;
    if i < k {
      CommittedForGood(run, i, k - 1, id);
      var w, next := run.states[k - 1], run.states[k];
      WorldAlways(run, k - 1);
      assert Moves(run, k - 1);
      var events := QueueSide(w, run.deeds[k - 1].0, run.deeds[k - 1].1, next, id);
      QueueDeedIsOthers(w, run.deeds[k - 1].0, run.deeds[k - 1].1, next, id);
      PlayedStaysClosed(w.sys.jobs[id], run.deeds[k - 1].0, events);
    }
  }

  lemma QueueDeedIsOthers(w: World, now: nat, deed: Deed, next: World, id: nat)
    requires Ledger.RowsRenderable(w.db) && WorldStep(w, now, deed, next)
    ensures deed.QueueDeed? && EventOf(deed.action, id).Some? ==> !OfLedger(EventOf(deed.action, id).value)
  {
    hide Step, LedgerRuns.Step;
  }
}
