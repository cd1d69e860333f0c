/** The handlers that move import jobs, as the program runs them on the job table. */
module ImportHandlers {
  import opened Common
  import opened Snapshots
  import opened Review
  import opened ImportQueue
  import opened ImportQueueInvariant

  datatype ClaimOutcome = Ignored | Busy | Exhausted | Won(claim: Claimed)

  /** What processing reports: provider deferral, or a failure that may be retryable. */
  datatype Failure = ProviderDeferred | Failure(retry: bool)

  datatype RetryRefusal = AIDisabled | ImportNotFound | NotRetryable | InputMissing | NoAvailableProvider

  datatype FailureOutcome = GivenBack | Recorded | OwnershipLost

  class ImportStore {
    var jobs: map<nat, Job>

    ghost predicate Valid()
      reads this
    {
      forall id :: id in jobs ==> JobInv(jobs[id])
    }

    constructor ()
      ensures Valid() && jobs == map[]
    {
      jobs := map[];
    }

    /** The effect of one step on one job. */
    twostate predicate Took(id: nat, now: nat, event: Event)
      reads this
    {
      id in old(jobs) && Apply(old(jobs)[id], now, event).Some?
      && jobs == old(jobs)[id := Apply(old(jobs)[id], now, event).value]
    }

    twostate predicate Refused(id: nat, now: nat, event: Event)
      reads this
    {
      jobs == old(jobs) && (id in jobs ==> Apply(jobs[id], now, event).None?)
    }

    /** claim. */
    method ClaimMessage(id: nat, generation: nat, now: nat, token: nat, attempt: nat,
        ttl: nat) returns (outcome: ClaimOutcome)
      requires Valid()
      requires ClaimIsFresh(jobs, id, generation, token, attempt)
      modifies this
      ensures Valid()
      ensures outcome.Won? || outcome.Exhausted? ==> Took(id, now, Claim(generation, token, attempt, ttl))
      ensures outcome.Ignored? || outcome.Busy? ==> Refused(id, now, Claim(generation, token, attempt, ttl))
      ensures ClaimAnswered(old(jobs), jobs, id, now, token, outcome)
    {
      hide JobInv, RoundTaken;
      if id !in jobs {
        return Ignored;
      }
      var job := jobs[id];
      if generation != job.generation || (job.review.state != Pending && job.review.state != Parsing) {
        return Ignored;
      }
      if job.lease.Some? && job.lease.value.expires > now {
        return Busy;
      }
      if job.attemptCount >= job.maxAttempts {
        jobs := jobs[id := Release(job, Failed)];
        ApplyKeepsInv(job, now, Claim(generation, token, attempt, ttl));
        return Exhausted;
      }
      NextRoundFree(job, generation);
      var claim := Claimed(generation, attempt, job.attemptCount + 1, 0, None);
      var attempts := EndRunning(job.attempts, generation, Interrupted);
      attempts := attempts[attempt := Attempt(generation, claim.round, Running, [])];
      jobs := jobs[id := WithState(job, Parsing).(
        attemptCount := claim.round, lease := Some(Lease(token, now + ttl)),
        attempts := attempts, claims := job.claims[token := claim])];
      ApplyKeepsInv(job, now, Claim(generation, token, attempt, ttl));
      return Won(claim);
    }

    /** One beat of the heartbeat goroutine. */
    method Beat(id: nat, now: nat, token: nat, ttl: nat) returns (kept: bool)
      requires Valid()
      modifies this
      ensures Valid()
      ensures if kept then Took(id, now, Heartbeat(token, ttl)) else Refused(id, now, Heartbeat(token, ttl))
    {
      hide JobInv;
      if id !in jobs || !Holds(jobs[id], now, token) {
        return false;
      }
      ApplyKeepsInv(jobs[id], now, Heartbeat(token, ttl));
      jobs := jobs[id := jobs[id].(lease := Some(Lease(token, now + ttl)))];
      return true;
    }

    /** Complete: replace the items one by one, then move the job to review. */
    method SavePreview(id: nat, now: nat, token: nat, items: seq<Item>) returns (saved: bool)
      requires Valid()
      modifies this
      ensures Valid()
      ensures if saved then Took(id, now, Complete(token, items)) else Refused(id, now, Complete(token, items))
    {
      hide JobInv;
      if id !in jobs {
        return false;
      }
      var job := jobs[id];
      if job.review.state == NeedsReview {
        return false;
      }
      if !Holds(job, now, token) {
        return false;
      }
      var rows: seq<Item> := [];
      var dates: set<string> := {};
      for i := 0 to |items|
        invariant rows == items[..i] && OneItemPerDate(items[..i])
        invariant dates == set k | 0 <= k < i :: items[k].date
        invariant jobs == old(jobs)
      {
        if items[i].date in dates {
          RepeatedDate(items, i);
          return false;
        }
        dates := dates + {items[i].date};
        rows := rows + [items[i]];
        assert items[..i + 1] == items[..i] + [items[i]];
      }
      assert items[..|items|] == items;
      ApplyKeepsInv(job, now, Complete(token, items));
      jobs := jobs[id := job.(
        review := job.review.(state := NeedsReview, items := rows, reviewVersion := job.review.reviewVersion + 1),
        lease := None,
        attempts := SettleAttempt(job.attempts, job.claims[token].attempt, Success))];
      return true;
    }

    /** The end of handle after a failure, up to its UPDATE of the job row: give the round back
        when nobody was called, otherwise record the failure. `queued` says whether the queue
        would hand the message out again. */
    method RecordFailure(id: nat, now: nat, token: nat, failure: Failure, queued: bool)
      returns (outcome: FailureOutcome)
      requires Valid() && (id in jobs ==> token in jobs[id].claims)
      modifies this
      ensures Valid()
      ensures outcome.GivenBack? ==>
                failure.ProviderDeferred? && Took(id, now, Defer(token))
                && jobs[id].review.state == Pending && jobs[id].lease == None
      ensures !outcome.GivenBack? && failure.ProviderDeferred? && id in old(jobs) ==>
                Apply(old(jobs)[id], now, Defer(token)).None?
      ensures outcome.Recorded? ==>
                Took(id, now, Fail(token, (failure.ProviderDeferred? || failure.retry) && queued))
                && token in jobs[id].claims && jobs[id].lease == None
                && if (failure.ProviderDeferred? || failure.retry) && queued
                      && old(jobs)[id].claims[token].round < old(jobs)[id].maxAttempts
                   then jobs[id].review.state == Pending && jobs[id].claims[token].verdict == Some(Waiting)
                   else jobs[id].review.state == Failed && jobs[id].claims[token].verdict == Some(Broken)
      ensures outcome.OwnershipLost? ==> jobs == old(jobs) && (id in jobs ==> !Holds(jobs[id], now, token))
    {
      hide JobInv;
      if id !in jobs {
        return OwnershipLost;
      }
      var job := jobs[id];
      if failure.ProviderDeferred? && Holds(job, now, token) {
        var attempt := job.claims[token].attempt;
        RoundIsPositive(job, now, token);
        if attempt !in job.attempts || job.attempts[attempt].calls == [] {
          ApplyKeepsInv(job, now, Defer(token));
          jobs := jobs[id := Release(job, Pending).(
            attemptCount := job.attemptCount - 1, attempts := job.attempts - {attempt})];
          return GivenBack;
        }
      }
      if !Holds(job, now, token) {
        return OwnershipLost;
      }
      var retry := (failure.ProviderDeferred? || failure.retry) && queued;
      var state, verdict := Failed, Broken;
      if retry && job.claims[token].round < job.maxAttempts {
        state, verdict := Pending, Waiting;
      }
      ApplyKeepsInv(job, now, Fail(token, retry));
      jobs := jobs[id := Release(job, state).(
        claims := job.claims[token := job.claims[token].(verdict := Some(verdict))])];
      return Recorded;
    }

    /** The last statement of handle, some time after the failure was recorded: the attempt row
        gets its state, unless a cancellation or a later claim has ended it meanwhile. */
    method SettleAttemptRow(id: nat, now: nat, token: nat)
      requires Valid() && id in jobs && token in jobs[id].claims && jobs[id].claims[token].verdict.Some?
      modifies this
      ensures Valid() && Took(id, now, Settle(token))
      ensures jobs[id].review == old(jobs)[id].review && jobs[id].lease == old(jobs)[id].lease
    {
      hide JobInv;
      var job := jobs[id];
      var claim := job.claims[token];
      ApplyKeepsInv(job, now, Settle(token));
      if claim.attempt in job.attempts && job.attempts[claim.attempt].state == Running {
        jobs := jobs[id := job.(
          attempts := job.attempts[claim.attempt := job.attempts[claim.attempt].(state := claim.verdict.value)])];
      }
    }

    /** reconcile: the jobs among `ids` whose delivered message is missing or archived fail;
        every other job stays as it is. */
    method Reconcile(now: nat, ids: seq<nat>, lost: set<nat>)
      requires Valid()
      modifies this
      ensures Valid() && jobs.Keys == old(jobs).Keys
      ensures forall id :: id in jobs ==>
                Reconciled(old(jobs)[id], jobs[id], now, id in ids && id in lost)
    {
      hide JobInv, Stuck, Release, Reconciled;
      for i := 0 to |ids|
        invariant Valid() && jobs.Keys == old(jobs).Keys
        invariant forall id :: id in jobs ==>
                    jobs[id] == if id in ids[..i] && id in lost && Stuck(old(jobs)[id], now)
                                then Release(old(jobs)[id], Failed)
                                else old(jobs)[id]
      {
        var id := ids[i];
        assert ids[..i + 1] == ids[..i] + [id];
        ReleasedIsNotStuck(old(jobs), now);
        if id in jobs && id in lost && Stuck(jobs[id], now) {
          StuckIsAbandoned(jobs[id], now);
          jobs := jobs[id := Release(jobs[id], Failed)];
        }
      }
      assert ids[..|ids|] == ids;
      forall id | id in jobs ensures Reconciled(old(jobs)[id], jobs[id], now, id in ids && id in lost) {
        StuckFails(old(jobs)[id], jobs[id], now, id in ids && id in lost);
      }
    }

    /** MigrateLegacy: every idle legacy job among `ids` starts its first queued generation. */
    method MigrateLegacy(now: nat, ids: seq<nat>, maxRounds: nat)
      requires Valid()
      modifies this
      ensures Valid() && jobs.Keys == old(jobs).Keys
      ensures forall id :: id in jobs ==>
                jobs[id] == if id in ids then Migrated(old(jobs)[id], now, maxRounds) else old(jobs)[id]
    {
      hide JobInv, MigrateJob, NextGeneration, Migrated, Open, Unleased;
      for i := 0 to |ids|
        invariant Valid() && jobs.Keys == old(jobs).Keys
        invariant forall id :: id in jobs ==>
                    jobs[id] == if id in ids[..i] then Migrated(old(jobs)[id], now, maxRounds) else old(jobs)[id]
      {
        var id := ids[i];
        assert ids[..i + 1] == ids[..i] + [id];
        if id in jobs {
          var job := jobs[id];
          MigrateMeans(job, now, maxRounds);
          MigratesOnce(old(jobs)[id], now, maxRounds);
          if job.review.source == ImageAI && Open(job) && Unleased(job, now) && job.outbox == map[] {
            NextGenerationKeeps(job, now, maxRounds);
            jobs := jobs[id := NextGeneration(job, now, maxRounds)];
          }
        }
      }
      assert ids[..|ids|] == ids;
    }

    /** cancelImport: the job, the open calls of its running attempt, then the attempt. */
    method CancelImport(id: nat, now: nat) returns (ok: bool)
      requires Valid()
      modifies this
      ensures Valid()
      ensures ok ==>
                (id in old(jobs) && old(jobs)[id].review.state == Cancelled && jobs == old(jobs))
                || Took(id, now, Cancel)
      ensures !ok ==> Refused(id, now, Cancel)
    {
      hide JobInv;
      if id !in jobs {
        return false;
      }
      var job := jobs[id];
      if job.review.state == Cancelled {
        return true;
      }
      if job.review.state != Uploaded && job.review.state != Pending && job.review.state != Parsing
         && job.review.state != NeedsReview {
        return false;
      }
      ApplyKeepsInv(job, now, Cancel);
      jobs := jobs[id := Release(job, Cancelled).(attempts := StopRunning(job.attempts, job.generation))];
      return true;
    }

    /** retryImport: `enabled` and `supported` come from the configuration, `inputThere` says
        whether the stored image can still be opened. */
    method RetryImport(id: nat, now: nat, maxRounds: nat, enabled: bool, inputThere: bool, supported: bool)
      returns (refusal: Option<RetryRefusal>)
      requires Valid()
      modifies this
      ensures Valid()
      ensures if refusal.None? then Took(id, now, Retry(maxRounds)) else jobs == old(jobs)
      ensures refusal == Some(AIDisabled) <==> !enabled
      ensures refusal == Some(ImportNotFound) <==> enabled && id !in old(jobs)
      ensures refusal == Some(NotRetryable) <==> enabled && Refuses(old(jobs), id, now, Retry(maxRounds))
      ensures refusal == Some(InputMissing) <==>
              enabled && Accepts(old(jobs), id, now, Retry(maxRounds)) && old(jobs)[id].review.source == ImageAI
              && !inputThere
      ensures refusal == Some(NoAvailableProvider) <==>
              enabled && Accepts(old(jobs), id, now, Retry(maxRounds)) && !supported
              && (old(jobs)[id].review.source == ImageAI ==> inputThere)
    {
      hide JobInv;
      if !enabled {
        return Some(AIDisabled);
      }
      if id !in jobs {
        return Some(ImportNotFound);
      }
      var job := jobs[id];
      if job.review.state != Failed || (job.review.source != TextAI && job.review.source != ImageAI) {
        return Some(NotRetryable);
      }
      if job.review.source == ImageAI && !inputThere {
        return Some(InputMissing);
      }
      if !supported {
        return Some(NoAvailableProvider);
      }
      ApplyKeepsInv(job, now, Retry(maxRounds));
      var next := Release(job, Pending).(generation := job.generation + 1, attemptCount := 0, maxAttempts := maxRounds);
      jobs := jobs[id := next.(outbox := job.outbox[next.generation := OutboxRow(false, now, None, 0)])];
      return None;
    }

    /** dispatchOne: lease a due row, hand its message to the queue, and record the answer.
        Without an answer the message was not taken; a lost one was. */
    method DispatchOne(id: nat, generation: nat, now: nat, token: nat, until: nat, answer: Option<Answer>,
        nextAt: nat) returns (worked: bool)
      requires Valid()
      requires DispatchIsFresh(jobs, id, generation, token, answer)
      modifies this
      ensures Valid()
      ensures worked ==> RowDispatched(old(jobs), jobs, id, generation, token, answer, nextAt)
      ensures !worked ==> Refused(id, now, LeaseOutbox(generation, token, until))
    {
      hide JobInv, LeaseRow, EnqueueMessage, DeliverRow, PostponeRow, Dispatched;
      if id !in jobs || LeaseRow(jobs[id], now, generation, token, until).None? {
        return false;
      }
      var job := LeaseRow(jobs[id], now, generation, token, until).value;
      LeasedRowGoesOn(jobs[id], now, generation, token, until, answer, nextAt);
      DispatchingKeeps(jobs[id], now, generation, token, until, answer, nextAt);
      if answer.Some? {
        job := EnqueueMessage(job, token, answer.value).value;
      }
      if answer.Some? && answer.value != LostAnswer {
        job := DeliverRow(job, token).value;
      } else {
        job := PostponeRow(job, token, nextAt).value;
      }
      jobs := jobs[id := job];
      return true;
    }
  }

  /** The row ends delivered exactly when the dispatcher was told the queue has the task, and
      due again at `nextAt` otherwise; the generation counts as sent also when that was not
      told. Nothing else about the job changes. */
  ghost predicate Dispatched(was: Job, now: Job, generation: nat, token: nat, answer: Option<Answer>, nextAt: nat) {
    var told := answer == Some(Accepted) || answer == Some(AlreadyThere);
    generation in was.outbox && generation in now.outbox && !was.outbox[generation].delivered
    && now == was.(outbox := was.outbox[generation := now.outbox[generation]],
                   dispatches := was.dispatches[token := Dispatch(generation, told)],
                   sent := if answer.Some? then was.sent + {generation} else was.sent)
    && now.outbox[generation].token.None? && now.outbox[generation].delivered == told
    && now.outbox[generation].nextAt == (if told then was.outbox[generation].nextAt else nextAt)
  }

  /** After the lease the answer and the last statement always go through. */
  lemma LeasedRowGoesOn(job: Job, now: nat, generation: nat, token: nat, until: nat, answer: Option<Answer>,
      nextAt: nat)
    requires LeaseRow(job, now, generation, token, until).Some?
    requires answer == Some(AlreadyThere) ==> generation in job.sent
    ensures var leased := LeaseRow(job, now, generation, token, until).value;
            (answer.Some? ==> EnqueueMessage(leased, token, answer.value).Some?)
            && var told := if answer.Some? then EnqueueMessage(leased, token, answer.value).value else leased;
               var last := if answer.Some? && answer.value != LostAnswer then DeliverRow(told, token)
                           else PostponeRow(told, token, nextAt);
               last.Some? && Dispatched(job, last.value, generation, token, answer, nextAt)
  {
  }

  /** The three statements together keep the job in order. */
  lemma DispatchingKeeps(job: Job, now: nat, generation: nat, token: nat, until: nat, answer: Option<Answer>,
      nextAt: nat)
    requires JobInv(job) && LeaseRow(job, now, generation, token, until).Some?
    requires answer == Some(AlreadyThere) ==> generation in job.sent
    ensures var leased := LeaseRow(job, now, generation, token, until).value;
            answer.Some? ==> EnqueueMessage(leased, token, answer.value).Some?
    ensures var leased := LeaseRow(job, now, generation, token, until).value;
            var told := if answer.Some? then EnqueueMessage(leased, token, answer.value).value else leased;
            var last := if answer.Some? && answer.value != LostAnswer then DeliverRow(told, token)
                        else PostponeRow(told, token, nextAt);
            last.Some? && JobInv(last.value)
  {
    hide JobInv, LeaseRow, EnqueueMessage, DeliverRow, PostponeRow, Dispatched, OutboxOk;
    LeasedRowGoesOn(job, now, generation, token, until, answer, nextAt);
    InvOutbox(job);
    LeaseKeepsOutbox(job, now, generation, token, until);
    var leased := LeaseRow(job, now, generation, token, until).value;
    if answer.Some? {
      EnqueueKeepsOutbox(leased, token, answer.value);
    }
    var told := if answer.Some? then EnqueueMessage(leased, token, answer.value).value else leased;
    if answer.Some? && answer.value != LostAnswer {
      DeliverKeepsOutbox(told, token);
      OnlyOutboxChanged(job, DeliverRow(told, token).value);
    } else {
      PostponeKeepsOutbox(told, token, nextAt);
      OnlyOutboxChanged(job, PostponeRow(told, token, nextAt).value);
    }
  }

  /** The job is there and the protocol has, or has not, the step. */
  ghost predicate Accepts(jobs: map<nat, Job>, id: nat, now: nat, event: Event) {
    id in jobs && Apply(jobs[id], now, event).Some?
  }

  ghost predicate Refuses(jobs: map<nat, Job>, id: nat, now: nat, event: Event) {
    id in jobs && Apply(jobs[id], now, event).None?
  }

  /** The message was sent, and the lease owner and the attempt are new. */
  predicate ClaimIsFresh(jobs: map<nat, Job>, id: nat, generation: nat, token: nat, attempt: nat) {
    id in jobs ==> generation in jobs[id].sent && token !in jobs[id].claims && !AttemptIdUsed(jobs[id], attempt)
  }

  /** The token is new, and only a task the queue once took can be refused as already there. */
  predicate DispatchIsFresh(jobs: map<nat, Job>, id: nat, generation: nat, token: nat, answer: Option<Answer>) {
    id in jobs ==> token !in jobs[id].dispatches && (answer == Some(AlreadyThere) ==> generation in jobs[id].sent)
  }

  ghost predicate RowDispatched(was: map<nat, Job>, jobs: map<nat, Job>, id: nat, generation: nat, token: nat,
      answer: Option<Answer>, nextAt: nat)
  {
    id in was && id in jobs && jobs == was[id := jobs[id]]
    && Dispatched(was[id], jobs[id], generation, token, answer, nextAt)
  }

  /** What each answer of a claim tells about the job before and after. */
  ghost predicate ClaimAnswered(was: map<nat, Job>, jobs: map<nat, Job>, id: nat, now: nat, token: nat,
      outcome: ClaimOutcome)
  {
    match outcome
    case Ignored => true
    case Busy => id in jobs && jobs[id].lease.Some? && now < jobs[id].lease.value.expires
    case Exhausted =>
      id in jobs && id in was && jobs[id].review.state == Failed && jobs[id].attempts == was[id].attempts
    case Won(claim) => id in jobs && token in jobs[id].claims && claim == jobs[id].claims[token]
  }

  /** A job after MigrateLegacy came to it. */
  function Migrated(job: Job, now: nat, maxRounds: nat): Job {
    if MigrateJob(job, now, maxRounds).Some? then MigrateJob(job, now, maxRounds).value else job
  }

  lemma MigrateMeans(job: Job, now: nat, maxRounds: nat)
    ensures Migrated(job, now, maxRounds) ==
            if job.review.source == ImageAI && Open(job) && Unleased(job, now) && job.outbox == map[]
            then NextGeneration(job, now, maxRounds) else job
  {
    hide NextGeneration;
  }

  lemma MigratesOnce(job: Job, now: nat, maxRounds: nat)
    ensures Migrated(Migrated(job, now, maxRounds), now, maxRounds) == Migrated(job, now, maxRounds)
  {
    var next := NextGeneration(job, now, maxRounds);
    assert next.generation in next.outbox;
  }

  /** The jobs reconcile looks at. */
  predicate Stuck(job: Job, now: nat) {
    IsAI(job.review.source) && Open(job) && Unleased(job, now)
    && job.generation in job.outbox && job.outbox[job.generation].delivered
  }

  /** A job whose message is lost fails when it is an AI job that waits or is parsed, no lease
      on it is running, and the message of its generation was delivered. */
  ghost predicate Reconciled(was: Job, next: Job, now: nat, lost: bool) {
    if lost && (was.review.source == ImageAI || was.review.source == TextAI)
       && (was.review.state == Pending || was.review.state == Parsing)
       && (was.lease == None || was.lease.value.expires < now)
       && was.generation in was.outbox && was.outbox[was.generation].delivered
    then next == was.(review := was.review.(state := Failed), lease := None) else next == was
  }

  lemma StuckFails(was: Job, next: Job, now: nat, lost: bool)
    requires next == if lost && Stuck(was, now) then Release(was, Failed) else was
    ensures Reconciled(was, next, now, lost)
  {
  }

  /** What reconcile writes is the abandoning step of the protocol. */
  lemma StuckIsAbandoned(job: Job, now: nat)
    requires JobInv(job) && Stuck(job, now)
    ensures Apply(job, now, Abandon(job.generation)) == Some(Release(job, Failed)) && JobInv(Release(job, Failed))
  {
    hide JobInv;
    DeliveredWasSent(job, job.generation);
    ApplyKeepsInv(job, now, Abandon(job.generation));
  }

  lemma ReleasedIsNotStuck(jobs: map<nat, Job>, now: nat)
    ensures forall id :: id in jobs ==> !Stuck(Release(jobs[id], Failed), now)
  {
  }

  lemma DeliveredWasSent(job: Job, generation: nat)
    requires JobInv(job) && generation in job.outbox && job.outbox[generation].delivered
    ensures generation in job.sent
  {
  }

  /** Giving a round back never makes the count negative. */
  lemma RoundIsPositive(job: Job, now: nat, token: nat)
    requires JobInv(job) && Holds(job, now, token)
    ensures job.attemptCount >= 1
  {
    hide OneItemPerDate, CallsOk;
  }

  lemma RepeatedDate(items: seq<Item>, i: nat)
    requires i < |items| && items[i].date in set k | 0 <= k < i :: items[k].date
    ensures !OneItemPerDate(items)
  {
    var k :| 0 <= k < i && items[k].date == items[i].date;
  }
}
