/** What every interleaving of workers, dispatchers, clean-up and people guarantees. */
module ImportQueueRuns {
  import opened Common
  import opened Snapshots
  import opened Review
  import opened ImportQueue
  import opened ImportQueueInvariant

  /** The clock, and what happened to the job then; nothing when the step concerned others. */
  datatype Moment = Moment(now: nat, event: Option<Event>)

  datatype Trace = Trace(jobs: seq<Job>, moments: seq<Moment>)

  ghost predicate Happens(job: Job, moment: Moment, next: Job) {
    if moment.event.None? then next == job else Apply(job, moment.now, moment.event.value) == Some(next)
  }

  /** Any interleaving of effective steps while the clock does not run backwards. */
  ghost predicate ValidTrace(trace: Trace) {
    |trace.jobs| == |trace.moments| + 1 && JobInv(trace.jobs[0])
    && (forall i :: 0 <= i < |trace.moments| ==> Happens(trace.jobs[i], trace.moments[i], trace.jobs[i + 1]))
    && forall i, k :: 0 <= i < k < |trace.moments| ==> trace.moments[i].now <= trace.moments[k].now
  }

  lemma {:induction false} InvAlways(trace: Trace, i: nat)
    requires ValidTrace(trace) && i < |trace.jobs|
    ensures JobInv(trace.jobs[i])
  {
    hide JobInv, Apply;
    if i > 0 {
      InvAlways(trace, i - 1);
      assert Happens(trace.jobs[i - 1], trace.moments[i - 1], trace.jobs[i - 1 + 1]);
      if trace.moments[i - 1].event.Some? {
        ApplyKeepsInv(trace.jobs[i - 1], trace.moments[i - 1].now, trace.moments[i - 1].event.value);
      }
    }
  }

  // ----- fencing

  /** The worker behind a write to the job row, its items or its calls. */
  function Writer(event: Event): Option<nat> {
    match event
    case Heartbeat(token, _) => Some(token)
    case StartCall(token, _) => Some(token)
    case FinishCall(token) => Some(token)
    case Complete(token, _) => Some(token)
    case Defer(token) => Some(token)
    case Fail(token, _) => Some(token)
    case _ => None
  }

  /** Steps that hand the job to somebody else or take it away. */
  predicate Disturbs(event: Event, token: nat) {
    event.Claim? || event.Cancel? || event.Retry? || event.Migrate? || event.Abandon?
    || (Writer(event).Some? && Writer(event).value != token)
    || ((event.Complete? || event.Defer? || event.Fail?) && event.token == token)
  }

  lemma WriteNeedsLease(job: Job, now: nat, event: Event)
    requires Writer(event).Some? && Apply(job, now, event).Some?
    ensures Holds(job, now, Writer(event).value)
  {
  }

  lemma StepEndsOwnership(job: Job, now: nat, event: Event, token: nat)
    requires token in job.claims && Apply(job, now, event).Some?
    ensures token in Apply(job, now, event).value.claims
    ensures Owns(Apply(job, now, event).value, token) ==>
              Owns(job, token) && !Disturbs(event, token)
              && Apply(job, now, event).value.generation == job.generation
              && Apply(job, now, event).value.attemptCount == job.attemptCount
  {
    hide OneItemPerDate, EndRunning, StopRunning, SettleAttempt, CloseCalls, RoundTaken, AttemptIdUsed, RowIsLeasedBy,
         Unanchor, UpdateDecisions, Correct;
  }

  lemma {:induction false} OwnedThroughout(trace: Trace, i: nat, k: nat, token: nat)
    requires ValidTrace(trace) && i <= k < |trace.jobs| && token in trace.jobs[i].claims && Owns(trace.jobs[k], token)
    ensures forall j :: i <= j <= k ==>
              Owns(trace.jobs[j], token) && trace.jobs[j].generation == trace.jobs[i].generation
              && trace.jobs[j].attemptCount == trace.jobs[i].attemptCount
    ensures forall j :: i <= j < k && trace.moments[j].event.Some? ==> !Disturbs(trace.moments[j].event.value, token)
    decreases k - i
  {
    hide Apply, Disturbs, JobInv;
    if i < k {
      assert Happens(trace.jobs[i], trace.moments[i], trace.jobs[i + 1]);
      if trace.moments[i].event.Some? {
        StepEndsOwnership(trace.jobs[i], trace.moments[i].now, trace.moments[i].event.value, token);
      }
      OwnedThroughout(trace, i + 1, k, token);
    }
  }

  /** Fencing: a worker's write takes effect only if, since its own claim, the job was its
      alone: nobody claimed, cancelled, retried, abandoned or wrote it, and generation and
      round are those it claimed. */
  lemma Fencing(trace: Trace, i: nat, k: nat, token: nat)
    requires ValidTrace(trace) && i < k < |trace.moments|
    requires trace.moments[i].event.Some? && trace.moments[i].event.value.Claim?
    requires trace.moments[i].event.value.token == token && Owns(trace.jobs[i + 1], token)
    requires trace.moments[k].event.Some? && Writer(trace.moments[k].event.value) == Some(token)
    ensures forall j :: i < j <= k ==>
              Owns(trace.jobs[j], token) && trace.jobs[j].generation == trace.jobs[i + 1].generation
              && trace.jobs[j].attemptCount == trace.jobs[i + 1].attemptCount
    ensures forall j :: i < j < k && trace.moments[j].event.Some? ==> !Disturbs(trace.moments[j].event.value, token)
  {
    hide JobInv, Disturbs;
    assert Happens(trace.jobs[i], trace.moments[i], trace.jobs[i + 1]);
    assert Happens(trace.jobs[k], trace.moments[k], trace.jobs[k + 1]);
    WriteNeedsLease(trace.jobs[k], trace.moments[k].now, trace.moments[k].event.value);
    OwnedThroughout(trace, i + 1, k, token);
  }

  /** An unexpired lease yields only to its owner's own last write and to a cancellation. */
  lemma LiveLeaseStands(job: Job, now: nat, event: Event)
    requires JobInv(job) && job.lease.Some? && now < job.lease.value.expires && Apply(job, now, event).Some?
    ensures var owner := job.lease.value.owner;
            var next := Apply(job, now, event).value;
            (Owns(next, owner) && next.review.state == Parsing && next.generation == job.generation)
            || event.Cancel? || ((event.Complete? || event.Defer? || event.Fail?) && event.token == owner)
  {
    hide OneItemPerDate, EndRunning, StopRunning, CloseCalls, RoundTaken, Unanchor, UpdateDecisions, Correct,
         Rounds, AttemptsOk, OutboxOk, ClaimsOk;
    EditsNeedReview(job, event);
  }

  lemma EditsNeedReview(job: Job, event: Event)
    requires event.Decisions? || event.Correction? ==> Apply(job, 0, event).Some?
    ensures event.Decisions? || event.Correction? ==> job.review.state == NeedsReview
  {
    hide DecideAll, CorrectItems;
  }

  // ----- review protection

  /** Steps of messages, workers, dispatchers, the finalizer, the reconciler and migration. */
  predicate Machine(event: Event) {
    !(event.Cancel? || event.Retry? || event.Decisions? || event.Correction? || event.CommitReview?
      || event.RollBackReview? || event.UnanchorItems?)
  }

  predicate Reviewed(state: JobState) {
    state in {NeedsReview, Completed, RolledBack, Cancelled}
  }

  lemma MachineLeavesReview(job: Job, now: nat, event: Event)
    requires Reviewed(job.review.state) && Machine(event) && Apply(job, now, event).Some?
    ensures Apply(job, now, event).value.review == job.review
  {
    hide OneItemPerDate, EndRunning, RoundTaken;
  }

  lemma ReviewedStays(job: Job, now: nat, event: Event)
    requires Reviewed(job.review.state) && Apply(job, now, event).Some?
    ensures Reviewed(Apply(job, now, event).value.review.state)
  {
    hide OneItemPerDate, EndRunning, StopRunning, CloseCalls, RoundTaken, Unanchor, DecideAll, CorrectItems;
  }

  lemma {:induction false} ReviewedForGood(trace: Trace, i: nat, k: nat)
    requires ValidTrace(trace) && i <= k < |trace.jobs| && Reviewed(trace.jobs[i].review.state)
    ensures Reviewed(trace.jobs[k].review.state)
    decreases k - i
  {
    hide Apply, JobInv, Reviewed;
    if i < k {
      ReviewedForGood(trace, i, k - 1);
      assert Happens(trace.jobs[k - 1], trace.moments[k - 1], trace.jobs[k - 1 + 1]);
      if trace.moments[k - 1].event.Some? {
        ReviewedStays(trace.jobs[k - 1], trace.moments[k - 1].now, trace.moments[k - 1].event.value);
      }
    }
  }

  /** Once a job has reached review, no machine step of any generation, however late, changes
      its state, items, decisions or version. */
  lemma ReviewProtected(trace: Trace, i: nat, k: nat)
    requires ValidTrace(trace) && i <= k < |trace.moments| && trace.jobs[i].review.state == NeedsReview
    requires trace.moments[k].event.Some? ==> Machine(trace.moments[k].event.value)
    ensures trace.jobs[k + 1].review == trace.jobs[k].review
  {
    hide Apply, JobInv, Machine;
    ReviewedForGood(trace, i, k);
    assert Happens(trace.jobs[k], trace.moments[k], trace.jobs[k + 1]);
    if trace.moments[k].event.Some? {
      MachineLeavesReview(trace.jobs[k], trace.moments[k].now, trace.moments[k].event.value);
    }
  }

  // ----- review versions

  /** A decision or correction made against a version. */
  predicate EditNames(event: Event, version: nat) {
    (event.Decisions? || event.Correction?) && event.expected == version
  }

  lemma StepMovesVersion(job: Job, now: nat, event: Event)
    requires Apply(job, now, event).Some?
    ensures var next := Apply(job, now, event).value;
            var step := if event.Decisions? || event.Correction? || event.Complete? then 1 else 0;
            next.review.reviewVersion == job.review.reviewVersion + step
            && (step == 0 ==> SameButAnchors(job.review.items, next.review.items))
            && (step == 0 && !event.UnanchorItems? ==> next.review.items == job.review.items)
    ensures event.Decisions? || event.Correction? || event.CommitReview? ==>
              job.review.state == NeedsReview && event.expected == job.review.reviewVersion
  {
    hide OneItemPerDate, EndRunning, StopRunning, SettleAttempt, CloseCalls, RoundTaken, AttemptIdUsed, RowIsLeasedBy,
         DecideAll, CorrectItems;
  }

  lemma {:induction false} VersionPinsItems(trace: Trace, i: nat, k: nat)
    requires ValidTrace(trace) && i <= k < |trace.jobs|
    ensures trace.jobs[i].review.reviewVersion <= trace.jobs[k].review.reviewVersion
    ensures trace.jobs[i].review.reviewVersion == trace.jobs[k].review.reviewVersion ==>
              SameButAnchors(trace.jobs[i].review.items, trace.jobs[k].review.items)
    decreases k - i
  {
    hide Apply, JobInv;
    if i < k {
      VersionPinsItems(trace, i, k - 1);
      assert Happens(trace.jobs[k - 1], trace.moments[k - 1], trace.jobs[k - 1 + 1]);
      if trace.moments[k - 1].event.Some? {
        StepMovesVersion(trace.jobs[k - 1], trace.moments[k - 1].now, trace.moments[k - 1].event.value);
      }
    }
  }

  /** Of all edits that name one version, at most one takes effect. */
  lemma OneEditPerVersion(trace: Trace, i: nat, k: nat, version: nat)
    requires ValidTrace(trace) && i <= k < |trace.moments|
    requires trace.moments[i].event.Some? && EditNames(trace.moments[i].event.value, version)
    requires trace.moments[k].event.Some? && EditNames(trace.moments[k].event.value, version)
    ensures i == k
  {
    hide Apply, JobInv;
    assert Happens(trace.jobs[i], trace.moments[i], trace.jobs[i + 1]);
    assert Happens(trace.jobs[k], trace.moments[k], trace.jobs[k + 1]);
    StepMovesVersion(trace.jobs[i], trace.moments[i].now, trace.moments[i].event.value);
    StepMovesVersion(trace.jobs[k], trace.moments[k].now, trace.moments[k].event.value);
    if i < k {
      VersionPinsItems(trace, i + 1, k);
    }
  }

  /** A commit works on the items its user saw under the version the commit names; all that
      can differ is an anchor whose row is gone. */
  lemma CommitUsesNamedItems(trace: Trace, i: nat, k: nat, version: nat)
    requires ValidTrace(trace) && i <= k < |trace.moments| && trace.jobs[i].review.reviewVersion == version
    requires trace.moments[k].event == Some(CommitReview(version))
    ensures SameButAnchors(trace.jobs[i].review.items, trace.jobs[k].review.items)
  {
    hide Apply, JobInv;
    assert Happens(trace.jobs[k], trace.moments[k], trace.jobs[k + 1]);
    StepMovesVersion(trace.jobs[k], trace.moments[k].now, trace.moments[k].event.value);
    VersionPinsItems(trace, i, k);
  }

  // ----- the budget of model calls

  /** The call rows of the current generation. */
  function CallRows(job: Job): set<(nat, nat)> {
    set a, i | a in job.attempts && job.attempts[a].generation == job.generation
        && 0 <= i < |job.attempts[a].calls| :: (a, i)
  }

  /** The round of a call row and the provider it asked. */
  ghost function Asked(job: Job, row: (nat, nat)): (nat, nat)
    requires row in CallRows(job)
  {
    (job.attempts[row.0].round, job.attempts[row.0].calls[row.1].provider)
  }

  function Grid(rounds: nat, providers: set<nat>): set<(nat, nat)> {
    set r, p | 1 <= r <= rounds && p in providers :: (r, p)
  }

  function Column(r: nat, providers: set<nat>): set<(nat, nat)> {
    set p | p in providers :: (r, p)
  }

  lemma {:induction false} ColumnSize(r: nat, providers: set<nat>)
    ensures |Column(r, providers)| == |providers|
  {
    if providers == {} {
      assert Column(r, providers) == {};
    } else {
      var x :| x in providers;
      ColumnSize(r, providers - {x});
      assert Column(r, providers) == Column(r, providers - {x}) + {(r, x)};
      assert (r, x) !in Column(r, providers - {x});
    }
  }

  lemma {:induction false} GridSize(rounds: nat, providers: set<nat>)
    ensures |Grid(rounds, providers)| == rounds * |providers|
  {
    if rounds == 0 {
      assert Grid(0, providers) == {};
    } else {
      GridSize(rounds - 1, providers);
      ColumnSize(rounds, providers);
      assert Grid(rounds, providers) == Grid(rounds - 1, providers) + Column(rounds, providers);
      assert Grid(rounds - 1, providers) !! Column(rounds, providers);
      assert rounds * |providers| == (rounds - 1) * |providers| + |providers|;
    }
  }

  /** An injection into a finite set bounds the size of its domain. */
  lemma {:induction false} RowsFit(job: Job, rows: set<(nat, nat)>, grid: set<(nat, nat)>)
    requires rows <= CallRows(job) && forall row :: row in rows ==> Asked(job, row) in grid
    requires forall x, y :: x in rows && y in rows && Asked(job, x) == Asked(job, y) ==> x == y
    ensures |rows| <= |grid|
  {
    if rows != {} {
      var row :| row in rows;
      var spot := Asked(job, row);
      RowsFit(job, rows - {row}, grid - {spot});
      assert |rows| == |rows - {row}| + 1 && |grid| == |grid - {spot}| + 1;
    }
  }

  lemma SameProviderSameCall(calls: seq<Call>, i: nat, j: nat)
    requires CallsOk(calls) && i < |calls| && j < |calls| && calls[i].provider == calls[j].provider
    ensures i == j
  {
  }

  lemma AskedOnce(job: Job, x: (nat, nat), y: (nat, nat))
    requires JobInv(job) && x in CallRows(job) && y in CallRows(job) && Asked(job, x) == Asked(job, y)
    ensures x == y
  {
    assert SameRound(job.attempts[x.0], job.attempts[y.0]);
    SameProviderSameCall(job.attempts[x.0].calls, x.1, y.1);
  }

  ghost predicate CallsName(job: Job, providers: set<nat>) {
    forall row :: row in CallRows(job) ==> Asked(job, row).1 in providers
  }

  /** The budget: in any run, a generation never records more calls than rounds allowed times
      providers, however often rounds were given back. */
  lemma CallBudget(trace: Trace, k: nat, providers: set<nat>)
    requires ValidTrace(trace) && k < |trace.jobs| && CallsName(trace.jobs[k], providers)
    requires trace.jobs[k].generation > trace.jobs[k].base
    ensures |CallRows(trace.jobs[k])| <= trace.jobs[k].maxAttempts * |providers|
  {
    hide Apply, RoundTaken, OneItemPerDate;
    InvAlways(trace, k);
    var job := trace.jobs[k];
    var grid := Grid(job.maxAttempts, providers);
    forall row | row in CallRows(job) ensures Asked(job, row) in grid {
    }
    forall x, y | x in CallRows(job) && y in CallRows(job) && Asked(job, x) == Asked(job, y) ensures x == y {
      AskedOnce(job, x, y);
    }
    RowsFit(job, CallRows(job), grid);
    GridSize(job.maxAttempts, providers);
  }

  /** In any run the attempts of the current generation are rounds 1..attemptCount, each once,
      within the maximum, and only the last can be running. */
  lemma RoundsAreExact(trace: Trace, k: nat, round: nat)
    requires ValidTrace(trace) && k < |trace.jobs| && trace.jobs[k].generation > trace.jobs[k].base
    ensures var job := trace.jobs[k];
            (RoundTaken(job.attempts, job.generation, round) <==> 1 <= round <= job.attemptCount)
            && job.attemptCount <= job.maxAttempts
    ensures var job := trace.jobs[k];
            forall a, b :: (a in job.attempts && b in job.attempts && Live(job.attempts[a], job.generation)
                            && Live(job.attempts[b], job.generation)) ==> a == b
  {
    hide Apply, OneItemPerDate, CallsOk;
    InvAlways(trace, k);
    var job := trace.jobs[k];
    forall a, b | a in job.attempts && b in job.attempts && Live(job.attempts[a], job.generation)
        && Live(job.attempts[b], job.generation)
      ensures a == b
    {
      assert SameRound(job.attempts[a], job.attempts[b]);
    }
  }

  /** The unique index on rounds is never what stops a claim. */
  lemma ClaimNeverCollides(trace: Trace, k: nat, generation: nat)
    requires ValidTrace(trace) && k < |trace.jobs| && generation == trace.jobs[k].generation
    ensures var job := trace.jobs[k];
            !RoundTaken(EndRunning(job.attempts, generation, Interrupted), generation, job.attemptCount + 1)
  {
    hide Apply;
    InvAlways(trace, k);
    NextRoundFree(trace.jobs[k], generation);
  }
}
