/** Every step of the job protocol keeps the job's invariant. */
module ImportQueueInvariant {
  import opened Common
  import opened Snapshots
  import opened Review
  import opened ImportQueue

  /** Attempts whose rows stay, whose rounds stay, and whose states only leave Running. */
  ghost predicate AttemptsSettle(before: map<nat, Attempt>, after: map<nat, Attempt>) {
    before.Keys == after.Keys
    && forall a :: a in before ==>
         SameRound(before[a], after[a]) && (after[a].state == Running ==> before[a].state == Running)
         && (CallsOk(before[a].calls) ==> CallsOk(after[a].calls))
  }

  /** No attempt has gained a call or asks another provider. */
  ghost predicate CallsStay(before: map<nat, Attempt>, after: map<nat, Attempt>) {
    forall a :: a in after ==> a in before && SameAsked(before[a].calls, after[a].calls)
  }

  ghost predicate SameAsked(before: seq<Call>, after: seq<Call>) {
    |before| == |after| && forall i :: 0 <= i < |before| ==> after[i].provider == before[i].provider
  }

  lemma WalksStay(job: Job, after: map<nat, Attempt>)
    requires WalksOk(job) && CallsStay(job.attempts, after)
    ensures WalksOk(job.(attempts := after))
  {
  }

  /** The parts of the invariant that do not look at the lease or the review. */
  lemma SameWorkSameParts(a: Job, b: Job)
    requires a.attempts == b.attempts && a.generation == b.generation && a.base == b.base
             && a.attemptCount == b.attemptCount
    requires a.claims == b.claims && a.outbox == b.outbox && a.dispatches == b.dispatches && a.sent == b.sent
    ensures Rounds(a) ==> Rounds(b)
    ensures AttemptsOk(a) ==> AttemptsOk(b)
    ensures ClaimsOk(a) ==> ClaimsOk(b)
    ensures OutboxOk(a) ==> OutboxOk(b)
    ensures WalksOk(a) ==> WalksOk(b)
  {
    hide RoundTaken, CallsOk, CallsBelow;
  }

  lemma SettlingKeepsAttempts(job: Job, after: map<nat, Attempt>)
    requires AttemptsSettle(job.attempts, after)
    ensures AttemptsOk(job) ==> AttemptsOk(job.(attempts := after))
    ensures ClaimsOk(job) ==> ClaimsOk(job.(attempts := after))
    ensures Rounds(job) ==> Rounds(job.(attempts := after))
  {
    var next := job.(attempts := after);
    assert forall a :: a in job.attempts <==> a in after;
    if Rounds(job) {
      forall r | 1 <= r <= job.attemptCount ensures RoundTaken(after, job.generation, r) {
        assert RoundTaken(job.attempts, job.generation, r);
        var a :| a in job.attempts && job.attempts[a].generation == job.generation && job.attempts[a].round == r;
        assert SameRound(job.attempts[a], after[a]) && a in after;
      }
    }
    if AttemptsOk(job) {
      forall a, b | a in after && b in after && SameRound(after[a], after[b]) ensures a == b {
        assert SameRound(job.attempts[a], job.attempts[b]);
      }
    }
  }

  lemma EndingSettles(attempts: map<nat, Attempt>, generation: nat, state: AttemptState)
    requires state != Running
    ensures AttemptsSettle(attempts, EndRunning(attempts, generation, state))
    ensures CallsStay(attempts, EndRunning(attempts, generation, state))
  {
  }

  lemma StoppingSettles(attempts: map<nat, Attempt>, generation: nat)
    ensures AttemptsSettle(attempts, StopRunning(attempts, generation))
    ensures CallsStay(attempts, StopRunning(attempts, generation))
  {
  }

  lemma SettleSettles(attempts: map<nat, Attempt>, id: nat, state: AttemptState)
    requires state != Running
    ensures AttemptsSettle(attempts, SettleAttempt(attempts, id, state))
    ensures CallsStay(attempts, SettleAttempt(attempts, id, state))
  {
  }

  /** The attempt a claim is about to insert never meets its unique index. */
  lemma NextRoundFree(job: Job, generation: nat)
    requires JobInv(job) && generation == job.generation
    ensures !RoundTaken(EndRunning(job.attempts, generation, Interrupted), generation, job.attemptCount + 1)
  {
    EndingSettles(job.attempts, generation, Interrupted);
  }

  ghost predicate NoneLive(attempts: map<nat, Attempt>, generation: nat) {
    forall a :: a in attempts ==> !Live(attempts[a], generation)
  }

  /** The job with the next round running under a fresh attempt. */
  function NextRound(job: Job, id: nat): Job {
    job.(attemptCount := job.attemptCount + 1,
         attempts := job.attempts[id := Attempt(job.generation, job.attemptCount + 1, Running, [])])
  }

  lemma NextRoundRounds(job: Job, id: nat)
    requires Rounds(job) && id !in job.attempts
    ensures Rounds(NextRound(job, id))
  {
    var next := NextRound(job, id);
    forall r | 1 <= r <= next.attemptCount ensures RoundTaken(next.attempts, next.generation, r) {
      if r <= job.attemptCount {
        assert RoundTaken(job.attempts, job.generation, r);
        var a :| a in job.attempts && job.attempts[a].generation == job.generation && job.attempts[a].round == r;
        assert a in next.attempts && next.attempts[a] == job.attempts[a];
      } else {
        assert id in next.attempts && next.attempts[id].round == r;
      }
    }
  }

  lemma NextRoundAttempts(job: Job, id: nat)
    requires AttemptsOk(job) && Rounds(job) && NoneLive(job.attempts, job.generation) && id !in job.attempts
    requires job.base < job.generation
    ensures AttemptsOk(NextRound(job, id))
  {
    hide RoundTaken;
    var next := NextRound(job, id);
    forall a, b | a in next.attempts && b in next.attempts && SameRound(next.attempts[a], next.attempts[b])
      ensures a == b
    {
      assert a in job.attempts && b in job.attempts ==> SameRound(job.attempts[a], job.attempts[b]);
    }
  }

  lemma EndedHasNoneLive(attempts: map<nat, Attempt>, generation: nat)
    ensures NoneLive(EndRunning(attempts, generation, Interrupted), generation)
  {
  }

  lemma SentIsOutbox(job: Job, generation: nat)
    requires OutboxOk(job) && generation in job.sent
    ensures job.base < generation <= job.generation
  {
  }

  /** What a won claim does to the attempts. */
  lemma ClaimRunsNextRound(job: Job, now: nat, generation: nat, token: nat, attempt: nat, ttl: nat)
    requires JobInv(job) && ClaimJob(job, now, generation, token, attempt, ttl).Some?
             && job.attemptCount < job.maxAttempts
    ensures var next := ClaimJob(job, now, generation, token, attempt, ttl).value;
            Rounds(next) && AttemptsOk(next) && next.attemptCount <= next.maxAttempts
  {
    hide Rounds, AttemptsOk, ClaimsOk, OwnerOk, LeaseOk, RoundTaken, OneItemPerDate, AttemptsSettle, NoneLive, OutboxOk;
    var ended := EndRunning(job.attempts, generation, Interrupted);
    EndingSettles(job.attempts, generation, Interrupted);
    SettlingKeepsAttempts(job, ended);
    var middle := job.(attempts := ended);
    EndedHasNoneLive(job.attempts, generation);
    SentIsOutbox(job, generation);
    NextRoundRounds(middle, attempt);
    NextRoundAttempts(middle, attempt);
    SameAttemptsSameParts(NextRound(middle, attempt), ClaimJob(job, now, generation, token, attempt, ttl).value);
  }

  lemma ClaimKeeps(job: Job, now: nat, generation: nat, token: nat, attempt: nat, ttl: nat)
    requires JobInv(job) && ClaimJob(job, now, generation, token, attempt, ttl).Some?
    ensures JobInv(ClaimJob(job, now, generation, token, attempt, ttl).value)
  {
    hide Rounds, AttemptsOk, ClaimsOk, OwnerOk, LeaseOk, OutboxOk, RoundTaken, OneItemPerDate, EndRunning,
         AttemptIdUsed;
    if job.attemptCount < job.maxAttempts {
      ClaimRunsNextRound(job, now, generation, token, attempt, ttl);
      ClaimKeepsClaims(job, now, generation, token, attempt, ttl);
    } else {
      ReleaseKeeps(job, Failed);
    }
  }

  /** Rounds and attempts speak only of the attempts, their count and the generation. */
  lemma SameAttemptsSameParts(a: Job, b: Job)
    requires a.attempts == b.attempts && a.generation == b.generation && a.base == b.base
             && a.attemptCount == b.attemptCount
    ensures Rounds(a) ==> Rounds(b)
    ensures AttemptsOk(a) ==> AttemptsOk(b)
  {
  }

  lemma ClaimKeepsClaims(job: Job, now: nat, generation: nat, token: nat, attempt: nat, ttl: nat)
    requires JobInv(job) && ClaimJob(job, now, generation, token, attempt, ttl).Some?
             && job.attemptCount < job.maxAttempts
    ensures var next := ClaimJob(job, now, generation, token, attempt, ttl).value;
            ClaimsOk(next) && OwnerOk(next) && LeaseOk(next) && OutboxOk(next) && WalksOk(next)
  {
    hide Rounds, AttemptsOk, RoundTaken, OneItemPerDate;
  }

  /** Dispatching leaves all but the outbox side of a job alone. */
  lemma OnlyOutboxChanged(job: Job, next: Job)
    requires JobInv(job) && OutboxOk(next)
    requires next == job.(outbox := next.outbox, dispatches := next.dispatches, sent := next.sent)
    ensures JobInv(next)
  {
    hide RoundTaken, CallsOk, OneItemPerDate, OutboxOk;
  }

  lemma InvOutbox(job: Job)
    requires JobInv(job)
    ensures OutboxOk(job)
  {
    hide LeaseOk, OutboxOk, ClaimsOk, OwnerOk, AttemptsOk, WalksOk, Rounds, OneItemPerDate;
  }

  ghost predicate OutboxChangeOnly(job: Job, next: Job) {
    next == job.(outbox := next.outbox, dispatches := next.dispatches, sent := next.sent)
  }

  lemma LeaseKeepsOutbox(job: Job, now: nat, generation: nat, token: nat, until: nat)
    requires OutboxOk(job) && LeaseRow(job, now, generation, token, until).Some?
    ensures var next := LeaseRow(job, now, generation, token, until).value;
            OutboxOk(next) && OutboxChangeOnly(job, next)
  {
  }

  lemma EnqueueKeepsOutbox(job: Job, token: nat, answer: Answer)
    requires OutboxOk(job) && EnqueueMessage(job, token, answer).Some?
    ensures var next := EnqueueMessage(job, token, answer).value; OutboxOk(next) && OutboxChangeOnly(job, next)
  {
  }

  lemma DeliverKeepsOutbox(job: Job, token: nat)
    requires OutboxOk(job) && DeliverRow(job, token).Some?
    ensures var next := DeliverRow(job, token).value; OutboxOk(next) && OutboxChangeOnly(job, next)
  {
  }

  lemma PostponeKeepsOutbox(job: Job, token: nat, nextAt: nat)
    requires OutboxOk(job) && PostponeRow(job, token, nextAt).Some?
    ensures var next := PostponeRow(job, token, nextAt).value; OutboxOk(next) && OutboxChangeOnly(job, next)
  {
  }

  lemma DispatchKeeps(job: Job, now: nat, event: Event)
    requires JobInv(job) && (event.LeaseOutbox? || event.Enqueue? || event.Deliver? || event.Postpone?)
    requires Apply(job, now, event).Some?
    ensures JobInv(Apply(job, now, event).value)
  {
    hide JobInv, OutboxOk, LeaseRow, EnqueueMessage, DeliverRow, PostponeRow;
    InvOutbox(job);
    match event {
      case LeaseOutbox(generation, token, until) => LeaseKeepsOutbox(job, now, generation, token, until);
      case Enqueue(token, answer) => EnqueueKeepsOutbox(job, token, answer);
      case Deliver(token) => DeliverKeepsOutbox(job, token);
      case Postpone(token, nextAt) => PostponeKeepsOutbox(job, token, nextAt);
    }
    OnlyOutboxChanged(job, Apply(job, now, event).value);
  }

  lemma CallsGrow(calls: seq<Call>, provider: nat)
    requires CallsOk(calls) && CallsBelow(calls, provider)
    ensures var grown := calls + [Call(provider, |calls| + 1, true)];
            CallsOk(grown) && CallsBelow(grown, provider + 1)
  {
  }

  /** Rewriting the calls of one attempt. */
  lemma CallsRewritten(job: Job, id: nat, calls: seq<Call>)
    requires JobInv(job) && id in job.attempts && CallsOk(calls)
    requires forall t :: t in job.claims && job.claims[t].attempt == id ==> CallsBelow(calls, job.claims[t].next)
    ensures JobInv(job.(attempts := job.attempts[id := job.attempts[id].(calls := calls)]))
  {
    hide Rounds, AttemptsOk, ClaimsOk, OutboxOk, OneItemPerDate, CallsOk, CallsBelow;
    var after := job.attempts[id := job.attempts[id].(calls := calls)];
    assert job.attempts.Keys == after.Keys;
    SettlingKeepsAttempts(job, after);
    SameOutbox(job, job.(attempts := after));
  }

  lemma BelowLater(calls: seq<Call>, position: nat, later: nat)
    requires CallsBelow(calls, position) && position <= later
    ensures CallsBelow(calls, later)
  {
  }

  /** The walk only moves on. */
  lemma WalkMovesOn(job: Job, token: nat, position: nat)
    requires JobInv(job) && token in job.claims && job.claims[token].next <= position
    ensures JobInv(job.(claims := job.claims[token := job.claims[token].(next := position)]))
  {
    hide Rounds, AttemptsOk, OutboxOk, OneItemPerDate, CallsBelow;
    var next := job.(claims := job.claims[token := job.claims[token].(next := position)]);
    SameAttemptsSameParts(job, next);
    SameOutbox(job, next);
    var id := job.claims[token].attempt;
    if id in job.attempts {
      BelowLater(job.attempts[id].calls, job.claims[token].next, position);
    }
  }

  lemma ClaimOfAttempt(job: Job, token: nat, other: nat)
    requires JobInv(job) && token in job.claims && other in job.claims
    requires job.claims[token].attempt == job.claims[other].attempt
    ensures token == other
  {
    hide Rounds, AttemptsOk, OutboxOk, OneItemPerDate, WalksOk, OwnerOk, LeaseOk;
  }

  lemma CallsAreOk(job: Job, id: nat)
    requires JobInv(job) && id in job.attempts
    ensures CallsOk(job.attempts[id].calls)
    ensures forall t :: t in job.claims && job.claims[t].attempt == id ==>
                          CallsBelow(job.attempts[id].calls, job.claims[t].next)
  {
  }

  lemma CallKeeps(job: Job, now: nat, token: nat, provider: nat)
    requires JobInv(job) && RecordCall(job, now, token, provider).Some?
    ensures JobInv(RecordCall(job, now, token, provider).value)
  {
    hide JobInv, CallsOk, CallsBelow;
    var id := job.claims[token].attempt;
    var calls := job.attempts[id].calls;
    CallsAreOk(job, id);
    BelowLater(calls, job.claims[token].next, provider);
    CallsGrow(calls, provider);
    var walked := job.(claims := job.claims[token := job.claims[token].(next := provider + 1)]);
    WalkMovesOn(job, token, provider + 1);
    forall t | t in walked.claims && walked.claims[t].attempt == id ensures t == token {
      ClaimOfAttempt(walked, token, t);
    }
    CallsRewritten(walked, id, calls + [Call(provider, |calls| + 1, true)]);
  }

  lemma AnswerKeeps(job: Job, now: nat, token: nat)
    requires JobInv(job) && RecordAnswer(job, now, token).Some?
    ensures JobInv(RecordAnswer(job, now, token).value)
  {
    hide JobInv, CallsOk, CallsBelow;
    var id := job.claims[token].attempt;
    var calls := job.attempts[id].calls;
    CallsAreOk(job, id);
    LastCallClosed(calls);
    CallsRewritten(job, id, calls[|calls| - 1 := CloseCall(calls[|calls| - 1])]);
  }

  lemma LastCallClosed(calls: seq<Call>)
    requires CallsOk(calls) && calls != []
    ensures CallsOk(calls[|calls| - 1 := CloseCall(calls[|calls| - 1])])
    ensures forall n: nat :: CallsBelow(calls, n) ==> CallsBelow(calls[|calls| - 1 := CloseCall(calls[|calls| - 1])], n)
  {
  }

  lemma CompleteKeeps(job: Job, now: nat, token: nat, items: seq<Item>)
    requires JobInv(job) && CompleteJob(job, now, token, items).Some?
    ensures JobInv(CompleteJob(job, now, token, items).value)
  {
    hide Rounds, AttemptsOk, ClaimsOk, OutboxOk, OneItemPerDate;
    SettleSettles(job.attempts, job.claims[token].attempt, Success);
    var settled := job.(attempts := SettleAttempt(job.attempts, job.claims[token].attempt, Success));
    SettlingKeepsAttempts(job, settled.attempts);
    WalksStay(job, settled.attempts);
    SameOutbox(job, settled);
    SameWorkSameParts(settled, CompleteJob(job, now, token, items).value);
  }

  /** The attempts that are left when the attempt of the last round goes. */
  lemma LastRoundGone(job: Job, id: nat)
    requires Rounds(job) && AttemptsOk(job) && job.attemptCount > 0 && id in job.attempts
    requires job.attempts[id].generation == job.generation && job.attempts[id].round == job.attemptCount
    ensures var next := job.(attemptCount := job.attemptCount - 1, attempts := job.attempts - {id});
            Rounds(next) && AttemptsOk(next)
  {
    hide CallsOk;
    var next := job.(attemptCount := job.attemptCount - 1, attempts := job.attempts - {id});
    forall r | 1 <= r <= next.attemptCount ensures RoundTaken(next.attempts, next.generation, r) {
      assert RoundTaken(job.attempts, job.generation, r);
      var a :| a in job.attempts && job.attempts[a].generation == job.generation && job.attempts[a].round == r;
      assert a in next.attempts && next.attempts[a] == job.attempts[a];
    }
    forall a | a in next.attempts && next.attempts[a].generation == next.generation
      ensures 1 <= next.attempts[a].round <= next.attemptCount && next.attempts[a].state != Running
    {
      assert !SameRound(job.attempts[a], job.attempts[id]);
    }
  }

  lemma ClaimsWithoutAttempt(job: Job, id: nat)
    requires ClaimsOk(job) && WalksOk(job)
    ensures ClaimsOk(job.(attempts := job.attempts - {id})) && WalksOk(job.(attempts := job.attempts - {id}))
  {
    hide CallsBelow;
  }

  /** Fewer attempts, none of them of a generation to come. */
  lemma LegacyAttemptsGone(job: Job, id: nat)
    requires AttemptsOk(job) && job.generation <= job.base
    ensures job.attempts == map[]
  {
    hide CallsOk;
    assert forall a :: a !in job.attempts;
  }

  /** Giving a round back takes exactly the last one away. */
  lemma DeferKeeps(job: Job, now: nat, token: nat)
    requires JobInv(job) && DeferJob(job, now, token).Some?
    ensures JobInv(DeferJob(job, now, token).value)
  {
    hide OneItemPerDate, CallsOk, CallsBelow, Rounds, AttemptsOk, ClaimsOk, OutboxOk, WalksOk;
    var next := DeferJob(job, now, token).value;
    var id := job.claims[token].attempt;
    ClaimsWithoutAttempt(job, id);
    var shorter := job.(attemptCount := job.attemptCount - 1, attempts := job.attempts - {id});
    if job.generation > job.base {
      OwnerRunsLast(job, now, token);
      LastRoundGone(job, id);
    } else {
      LegacyAttemptsGone(job, id);
      NoAttemptsOk(shorter);
    }
    SameWalks(job.(attempts := job.attempts - {id}), shorter);
    SameOutbox(job, shorter);
    SameWorkSameParts(shorter, next);
  }

  lemma NoAttemptsOk(job: Job)
    requires job.attempts == map[]
    ensures AttemptsOk(job)
  {
  }

  lemma SameWalks(a: Job, b: Job)
    requires a.attempts == b.attempts && a.claims == b.claims && a.generation == b.generation && a.base == b.base
    ensures ClaimsOk(a) ==> ClaimsOk(b)
    ensures WalksOk(a) ==> WalksOk(b)
  {
    hide CallsBelow;
  }

  /** Whoever holds the lease is at the last round. */
  lemma OwnerRunsLast(job: Job, now: nat, token: nat)
    requires ClaimsOk(job) && OwnerOk(job) && Holds(job, now, token) && job.generation > job.base
    ensures var id := job.claims[token].attempt;
            id in job.attempts && job.attempts[id].generation == job.generation
            && job.attempts[id].round == job.attemptCount
  {
  }

  lemma VerdictKeepsClaims(job: Job, token: nat, verdict: AttemptState)
    requires ClaimsOk(job) && token in job.claims && verdict in {Waiting, Broken}
    ensures ClaimsOk(job.(claims := job.claims[token := job.claims[token].(verdict := Some(verdict))]))
  {
  }

  lemma FailKeeps(job: Job, now: nat, token: nat, retry: bool)
    requires JobInv(job) && FailJob(job, now, token, retry).Some?
    ensures JobInv(FailJob(job, now, token, retry).value)
  {
    hide Rounds, AttemptsOk, ClaimsOk, OutboxOk, OneItemPerDate;
    var again := retry && job.claims[token].round < job.maxAttempts;
    var verdict := if again then Waiting else Broken;
    VerdictKeepsClaims(job, token, verdict);
    var judged := job.(claims := job.claims[token := job.claims[token].(verdict := Some(verdict))]);
    SameAttemptsSameParts(job, judged);
    SameOutbox(job, judged);
    SameWorkSameParts(judged, FailJob(job, now, token, retry).value);
  }

  lemma SettleKeeps(job: Job, token: nat)
    requires JobInv(job) && SettleFailed(job, token).Some?
    ensures JobInv(SettleFailed(job, token).value)
  {
    hide Rounds, AttemptsOk, OutboxOk, OneItemPerDate;
    SettleSettles(job.attempts, job.claims[token].attempt, job.claims[token].verdict.value);
    SettlingKeepsAttempts(job, SettleFailed(job, token).value.attempts);
    WalksStay(job, SettleFailed(job, token).value.attempts);
    SameOutbox(job, SettleFailed(job, token).value);
  }

  /** Leaving the workers' hands. */
  lemma ReleaseKeeps(job: Job, state: JobState)
    requires JobInv(job) && state != Parsing
    ensures JobInv(Release(job, state))
  {
    hide Rounds, AttemptsOk, ClaimsOk, OutboxOk, OneItemPerDate;
    SameWorkSameParts(job, Release(job, state));
  }

  lemma NextGenerationAttempts(job: Job, now: nat, maxRounds: nat)
    requires AttemptsOk(job)
    ensures AttemptsOk(NextGeneration(job, now, maxRounds)) && Rounds(NextGeneration(job, now, maxRounds))
  {
    hide CallsOk;
  }

  lemma NextGenerationOutbox(job: Job, now: nat, maxRounds: nat)
    requires OutboxOk(job)
    ensures OutboxOk(NextGeneration(job, now, maxRounds))
  {
  }

  lemma NextGenerationKeeps(job: Job, now: nat, maxRounds: nat)
    requires JobInv(job)
    ensures JobInv(NextGeneration(job, now, maxRounds))
  {
    hide CallsBelow, OneItemPerDate, AttemptsOk, Rounds, OutboxOk;
    NextGenerationAttempts(job, now, maxRounds);
    NextGenerationOutbox(job, now, maxRounds);
  }

  lemma CancelKeeps(job: Job)
    requires JobInv(job) && CancelJob(job).Some?
    ensures JobInv(CancelJob(job).value)
  {
    hide Rounds, AttemptsOk, ClaimsOk, OutboxOk, OneItemPerDate;
    StoppingSettles(job.attempts, job.generation);
    var stopped := job.(attempts := StopRunning(job.attempts, job.generation));
    SettlingKeepsAttempts(job, stopped.attempts);
    WalksStay(job, stopped.attempts);
    SameOutbox(job, stopped);
    SameWorkSameParts(stopped, CancelJob(job).value);
  }

  lemma SameOutbox(a: Job, b: Job)
    requires a.generation == b.generation && a.base == b.base && a.outbox == b.outbox && a.dispatches == b.dispatches
             && a.sent == b.sent
    ensures OutboxOk(a) ==> OutboxOk(b)
  {
  }

  lemma UnanchoringKeepsDates(items: seq<Item>, rowId: nat)
    requires OneItemPerDate(items)
    ensures OneItemPerDate(Unanchor(items, rowId))
  {
  }

  /** Editing the review keeps the invariant as long as the dates stay distinct and the state
      does not become or stop being Parsing. */
  lemma ReviewKeeps(job: Job, review: ReviewJob)
    requires JobInv(job) && OneItemPerDate(review.items) && (review.state == Parsing <==> job.review.state == Parsing)
    ensures JobInv(job.(review := review))
  {
    hide Rounds, AttemptsOk, ClaimsOk, OutboxOk, OneItemPerDate;
    SameWorkSameParts(job, job.(review := review));
  }

  lemma SameDatesOnce(items: seq<Item>, next: seq<Item>)
    requires OneItemPerDate(items) && |next| == |items|
    requires forall i :: 0 <= i < |items| ==> next[i].date == items[i].date
    ensures OneItemPerDate(next)
  {
  }

  lemma EditKeepsDates(job: Job, now: nat, event: Event)
    requires JobInv(job) && Apply(job, now, event).Some?
    requires event.Decisions? || event.Correction? || event.CommitReview? || event.RollBackReview?
             || event.UnanchorItems?
    ensures OneItemPerDate(Apply(job, now, event).value.review.items)
  {
    hide LeaseOk, ClaimsOk, OwnerOk, AttemptsOk, Rounds, OutboxOk, SchedulesEquivalent, DecideAll, CorrectItems,
         OneItemPerDate;
    var items, next := job.review.items, Apply(job, now, event).value.review.items;
    match event {
      case Decisions(expected, decisions) =>
        DecideAllKeepsDates(items, decisions);
        SameDatesOnce(items, next);
      case Correction(expected, item, draft, existing) =>
        CorrectKeepsDates(items, item, draft, existing);
        SameDatesOnce(items, next);
      case UnanchorItems(rowId) => UnanchoringKeepsDates(items, rowId);
      case _ =>
    }
  }

  lemma PeopleKeep(job: Job, now: nat, event: Event)
    requires JobInv(job) && Apply(job, now, event).Some?
    requires event.Decisions? || event.Correction? || event.CommitReview? || event.RollBackReview?
             || event.UnanchorItems?
    ensures JobInv(Apply(job, now, event).value)
  {
    hide JobInv, OneItemPerDate;
    EditKeepsDates(job, now, event);
    ReviewKeeps(job, Apply(job, now, event).value.review);
  }

  lemma HeartbeatKeeps(job: Job, now: nat, token: nat, ttl: nat)
    requires JobInv(job) && Holds(job, now, token)
    ensures JobInv(job.(lease := Some(Lease(token, now + ttl))))
  {
    hide Rounds, AttemptsOk, ClaimsOk, OutboxOk, OneItemPerDate;
    SameWorkSameParts(job, job.(lease := Some(Lease(token, now + ttl))));
  }

  /** The invariant is inductive. */
  lemma ApplyKeepsInv(job: Job, now: nat, event: Event)
    requires JobInv(job) && Apply(job, now, event).Some?
    ensures JobInv(Apply(job, now, event).value)
  {
    hide JobInv;
    match event {
      case LeaseOutbox(_, _, _) => DispatchKeeps(job, now, event);
      case Enqueue(_, _) => DispatchKeeps(job, now, event);
      case Deliver(_) => DispatchKeeps(job, now, event);
      case Postpone(_, _) => DispatchKeeps(job, now, event);
      case Claim(generation, token, attempt, ttl) => ClaimKeeps(job, now, generation, token, attempt, ttl);
      case Heartbeat(token, ttl) => HeartbeatKeeps(job, now, token, ttl);
      case StartCall(token, provider) => CallKeeps(job, now, token, provider);
      case FinishCall(token) => AnswerKeeps(job, now, token);
      case Complete(token, items) => CompleteKeeps(job, now, token, items);
      case Defer(token) => DeferKeeps(job, now, token);
      case Fail(token, retry) => FailKeeps(job, now, token, retry);
      case Settle(token) => SettleKeeps(job, token);
      case Abandon(_) => ReleaseKeeps(job, Failed);
      case Migrate(maxRounds) => NextGenerationKeeps(job, now, maxRounds);
      case Retry(maxRounds) => NextGenerationKeeps(job, now, maxRounds);
      case Cancel => CancelKeeps(job);
      case Decisions(_, _) => PeopleKeep(job, now, event);
      case Correction(_, _, _, _) => PeopleKeep(job, now, event);
      case CommitReview(_) => PeopleKeep(job, now, event);
      case RollBackReview => PeopleKeep(job, now, event);
      case UnanchorItems(_) => PeopleKeep(job, now, event);
    }
  }
}
