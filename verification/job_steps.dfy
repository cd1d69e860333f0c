/** What the steps of an import job's protocol do, by the fields of its rows: when each goes
    through, the state it leaves, how long a lease runs and what becomes of the attempts. */
module JobSteps {
  import opened Common
  import opened Snapshots
  import opened Review
  import opened ImportQueue
  import opened ImportQueueInvariant

  /** The state each step leaves the job in. */
  lemma StateAfter(job: Job, now: nat, event: Event)
    requires Apply(job, now, event).Some?
    ensures var state, after := job.review.state, Apply(job, now, event).value.review.state;
            match event
            case Claim(_, _, _, _) => after == if job.attemptCount < job.maxAttempts then Parsing else Failed
            case Heartbeat(_, _) => state == Parsing && after == Parsing
            case Complete(_, _) => state == Parsing && after == NeedsReview
            case Defer(_) => state == Parsing && after == Pending
            case Fail(token, retry) =>
              state == Parsing && token in job.claims
              && after == if retry && job.claims[token].round < job.maxAttempts then Pending else Failed
            case Abandon(_) => (state == Pending || state == Parsing) && after == Failed
            case Migrate(_) => (state == Pending || state == Parsing) && after == Pending
            case Retry(_) => state == Failed && after == Pending
            case Cancel =>
              (state == Uploaded || state == Pending || state == Parsing || state == NeedsReview) && after == Cancelled
            case Decisions(_, _) => state == NeedsReview && after == NeedsReview
            case Correction(_, _, _, _) => state == NeedsReview && after == NeedsReview
            case CommitReview(_) => state == NeedsReview && after == Completed
            case RollBackReview => state == Completed && after == RolledBack
            case _ => after == state
  {
    hide RoundTaken, AttemptIdUsed, EndRunning, StopRunning, DecideAll, OneItemPerDate;
  }

  // ----- the worker

  /** The worker holds the job: its claim is of the running generation, the job is being
      parsed, and the lease is in its name and has not run out. */
  predicate InHand(job: Job, now: nat, token: nat) {
    token in job.claims && job.claims[token].generation == job.generation && job.review.state == Parsing
    && job.lease.Some? && job.lease.value.owner == token && now < job.lease.value.expires
  }

  /** A claim goes through for the current generation of a job that waits or is parsed, once no
      lease is running. It takes the next round under a lease of `ttl` from now, and ends the
      rounds that still count as running; with the rounds used up the job fails instead. */
  lemma ClaimMeaning(job: Job, now: nat, generation: nat, token: nat, attempt: nat, ttl: nat)
    requires JobInv(job) && generation in job.sent && token !in job.claims && attempt !in job.attempts
    requires forall t :: t in job.claims ==> job.claims[t].attempt != attempt
    ensures Apply(job, now, Claim(generation, token, attempt, ttl)).Some? <==>
            generation == job.generation && (job.review.state == Pending || job.review.state == Parsing)
            && (job.lease == None || job.lease.value.expires <= now)
    ensures Apply(job, now, Claim(generation, token, attempt, ttl)).Some? ==>
              var next, round := Apply(job, now, Claim(generation, token, attempt, ttl)).value, job.attemptCount + 1;
              if round > job.maxAttempts then next == job.(review := job.review.(state := Failed), lease := None)
              else
                next == job.(
                  review := job.review.(state := Parsing), attemptCount := round,
                  lease := Some(Lease(token, now + ttl)), attempts := next.attempts,
                  claims := job.claims[token := Claimed(generation, attempt, round, 0, None)])
                && next.attempts.Keys == job.attempts.Keys + {attempt}
                && next.attempts[attempt] == Attempt(generation, round, Running, [])
                && forall a :: a in job.attempts ==>
                    next.attempts[a] == if job.attempts[a].generation == generation && job.attempts[a].state == Running
                                        then job.attempts[a].(state := Interrupted) else job.attempts[a]
  {
    hide JobInv, RoundTaken;
    if generation == job.generation {
      NextRoundFree(job, generation);
    }
  }

  /** What a worker in hand of the job can rely on: the row of its attempt is there and running. */
  lemma AttemptInHand(job: Job, now: nat, token: nat)
    requires JobInv(job) && InHand(job, now, token)
    ensures job.claims[token].attempt in job.attempts && job.attempts[job.claims[token].attempt].state == Running
    ensures job.attemptCount >= 1
  {
    hide OneItemPerDate, CallsOk, WalksOk, OutboxOk;
  }

  /** A heartbeat goes through only in the hands of its worker, and the lease then runs `ttl`
      from now. */
  lemma HeartbeatMeaning(job: Job, now: nat, token: nat, ttl: nat)
    ensures Apply(job, now, Heartbeat(token, ttl)).Some? <==> InHand(job, now, token)
    ensures InHand(job, now, token) ==>
              Apply(job, now, Heartbeat(token, ttl)).value == job.(lease := Some(Lease(token, now + ttl)))
  {
  }

  /** A preview is saved only in the hands of its worker and with one item a date. The items
      replace what was there, the version moves on, and the attempt has succeeded. */
  lemma CompleteMeaning(job: Job, now: nat, token: nat, items: seq<Item>)
    requires JobInv(job)
    ensures Apply(job, now, Complete(token, items)).Some? <==>
            InHand(job, now, token) && forall i, j :: 0 <= i < j < |items| ==> items[i].date != items[j].date
    ensures Apply(job, now, Complete(token, items)).Some? ==>
              var id := job.claims[token].attempt;
              id in job.attempts
              && Apply(job, now, Complete(token, items)).value == job.(
                review := job.review.(state := NeedsReview, items := items,
                                      reviewVersion := job.review.reviewVersion + 1),
                lease := None, attempts := job.attempts[id := job.attempts[id].(state := Success)])
  {
    hide JobInv;
    if InHand(job, now, token) {
      AttemptInHand(job, now, token);
    }
  }

  /** A round is given back only in the hands of its worker and when it called no provider: the
      job waits again, one round less is used, and the attempt is gone. */
  lemma DeferMeaning(job: Job, now: nat, token: nat)
    requires JobInv(job)
    ensures Apply(job, now, Defer(token)).Some? <==>
            InHand(job, now, token) && job.claims[token].attempt in job.attempts
            && job.attempts[job.claims[token].attempt].calls == []
    ensures Apply(job, now, Defer(token)).Some? ==>
              job.attemptCount >= 1
              && Apply(job, now, Defer(token)).value == job.(
                review := job.review.(state := Pending), lease := None, attemptCount := job.attemptCount - 1,
                attempts := job.attempts - {job.claims[token].attempt})
  {
    hide JobInv;
    if InHand(job, now, token) {
      AttemptInHand(job, now, token);
    }
  }

  /** A failed round leaves the job waiting exactly when the failure may be tried again and the
      round was not the last one, and failed otherwise. The row of the attempt follows with the
      same verdict, if nothing else has ended it by then. */
  lemma FailMeaning(job: Job, now: nat, token: nat, retry: bool)
    requires JobInv(job)
    ensures Apply(job, now, Fail(token, retry)).Some? <==> InHand(job, now, token)
    ensures InHand(job, now, token) ==>
              var next, round := Apply(job, now, Fail(token, retry)).value, job.claims[token].round;
              next.lease == None && token in next.claims && next.attempts == job.attempts
              && next.attemptCount == job.attemptCount && next.generation == job.generation
              && next.review.items == job.review.items && next.review.reviewVersion == job.review.reviewVersion
              && if retry && round < job.maxAttempts
                 then next.review.state == Pending && next.claims[token].verdict == Some(Waiting)
                 else next.review.state == Failed && next.claims[token].verdict == Some(Broken)
  {
    hide JobInv;
  }

  lemma SettleMeaning(job: Job, now: nat, token: nat)
    requires token in job.claims && job.claims[token].verdict.Some? && job.claims[token].attempt in job.attempts
    ensures Apply(job, now, Settle(token)).Some?
    ensures var id, next := job.claims[token].attempt, Apply(job, now, Settle(token)).value;
            next.review == job.review && next.lease == job.lease && next.attempts.Keys == job.attempts.Keys
            && next.attempts[id].state ==
               (if job.attempts[id].state == Running then job.claims[token].verdict.value else job.attempts[id].state)
            && forall a :: a in job.attempts && a != id ==> next.attempts[a] == job.attempts[a]
  {
  }

  // ----- the queue and people

  /** Rounds that are over for the queue: the job fails only while it waits or is parsed under
      no running lease. */
  lemma AbandonMeaning(job: Job, now: nat, generation: nat)
    ensures Apply(job, now, Abandon(generation)).Some? <==>
            generation in job.sent && generation == job.generation
            && (job.review.state == Pending || job.review.state == Parsing)
            && (job.lease == None || job.lease.value.expires < now)
    ensures Apply(job, now, Abandon(generation)).Some? ==>
              Apply(job, now, Abandon(generation)).value == job.(review := job.review.(state := Failed), lease := None)
  {
  }

  /** A retry of a failed recognition and the adoption of an idle image job from before the
      queue both start a generation: no round is used, and its message is due at once. */
  lemma NextGenerationMeaning(job: Job, now: nat, maxRounds: nat)
    ensures Apply(job, now, Retry(maxRounds)).Some? <==>
            job.review.state == Failed && (job.review.source == ImageAI || job.review.source == TextAI)
    ensures Apply(job, now, Migrate(maxRounds)).Some? <==>
            job.review.source == ImageAI && job.outbox == map[]
            && (job.review.state == Pending || job.review.state == Parsing)
            && (job.lease == None || job.lease.value.expires < now)
    ensures forall event :: event in {Retry(maxRounds), Migrate(maxRounds)} && Apply(job, now, event).Some? ==>
              var g := job.generation + 1;
              Apply(job, now, event).value == job.(
                review := job.review.(state := Pending), lease := None, generation := g, attemptCount := 0,
                maxAttempts := maxRounds, outbox := job.outbox[g := OutboxRow(false, now, None, 0)])
  {
  }

  /** Cancelling stops the running rounds of the generation and closes their open calls. */
  lemma CancelMeaning(job: Job, now: nat)
    ensures Apply(job, now, Cancel).Some? <==>
            job.review.state == Uploaded || job.review.state == Pending || job.review.state == Parsing
            || job.review.state == NeedsReview
    ensures Apply(job, now, Cancel).Some? ==>
              var next := Apply(job, now, Cancel).value;
              next == job.(review := job.review.(state := Cancelled), lease := None, attempts := next.attempts)
              && next.attempts.Keys == job.attempts.Keys
              && forall a :: a in job.attempts ==>
                  var was, left := job.attempts[a], next.attempts[a];
                  if was.generation == job.generation && was.state == Running then
                    left == was.(state := Stopped, calls := left.calls) && |left.calls| == |was.calls|
                    && forall i :: 0 <= i < |was.calls| ==> left.calls[i] == was.calls[i].(open := false)
                  else left == was
  {
  }

  /** An outbox row is leased only while it is undelivered and due and no dispatcher's lease on
      it is running. */
  lemma LeaseOutboxMeaning(job: Job, now: nat, generation: nat, token: nat, until: nat)
    requires generation in job.outbox && token !in job.dispatches
    ensures var row, r := job.outbox[generation], Apply(job, now, LeaseOutbox(generation, token, until));
            (r.Some? <==> !row.delivered && row.nextAt <= now && (row.token == None || row.leaseUntil < now))
            && (r.Some? ==>
                  r.value.outbox == job.outbox[generation := OutboxRow(row.delivered, row.nextAt, Some(token), until)]
                  && r.value.dispatches == job.dispatches[token := Dispatch(generation, false)])
  {
  }

  /** A commit and a rollback touch nothing of the job but its state. */
  lemma CloseMeaning(job: Job, now: nat, expected: nat)
    ensures Apply(job, now, CommitReview(expected)) ==
            if job.review.state == NeedsReview && expected > 0 && expected == job.review.reviewVersion
            then Some(job.(review := job.review.(state := Completed))) else None
    ensures Apply(job, now, RollBackReview) ==
            if job.review.state == Completed then Some(job.(review := job.review.(state := RolledBack))) else None
  {
  }

  // ----- a job in the outbox gets going

  /** The dispatcher leases the due row of a generation, the queue takes the message, the row is
      marked delivered, and a worker claims the job. */
  function Start(generation: nat, token: nat, worker: nat, attempt: nat, until: nat, ttl: nat): seq<Event> {
    [LeaseOutbox(generation, token, until), Enqueue(token, Accepted), Deliver(token),
     Claim(generation, worker, attempt, ttl)]
  }

  /** The steps one after the other at one moment. */
  ghost function ApplyAll(job: Job, now: nat, events: seq<Event>): Option<Job>
    decreases |events|
  {
    if events == [] then Some(job)
    else match Apply(job, now, events[0])
      case None => None
      case Some(next) => ApplyAll(next, now, events[1..])
  }

  lemma FourSteps(job: Job, now: nat, events: seq<Event>, a: Job, b: Job, c: Job, d: Job)
    requires |events| == 4 && Apply(job, now, events[0]) == Some(a) && Apply(a, now, events[1]) == Some(b)
    requires Apply(b, now, events[2]) == Some(c) && Apply(c, now, events[3]) == Some(d)
    ensures ApplyAll(job, now, events) == Some(d)
  {
    hide Apply;
    assert ApplyAll(d, now, events[4..]) == Some(d);
    assert ApplyAll(c, now, events[3..]) == Some(d) by {
      assert events[3..][1..] == events[4..];
    }
    assert ApplyAll(b, now, events[2..]) == Some(d) by {
      assert events[2..][1..] == events[3..];
    }
    assert ApplyAll(a, now, events[1..]) == Some(d) by {
      assert events[1..][1..] == events[2..];
    }
  }

  /** The three steps of the dispatcher touch the outbox side of the job only. */
  lemma MessageGoesOut(job: Job, now: nat, token: nat, until: nat) returns (a: Job, b: Job, c: Job)
    requires job.generation in job.outbox && token !in job.dispatches
    requires job.outbox[job.generation] == OutboxRow(false, job.outbox[job.generation].nextAt, None, 0)
    requires job.outbox[job.generation].nextAt <= now
    ensures Apply(job, now, LeaseOutbox(job.generation, token, until)) == Some(a)
    ensures Apply(a, now, Enqueue(token, Accepted)) == Some(b) && Apply(b, now, Deliver(token)) == Some(c)
    ensures job.generation in c.sent && job.generation in c.outbox && c.outbox[job.generation].delivered
    ensures c == job.(outbox := c.outbox, dispatches := c.dispatches, sent := c.sent)
  {
    a := Apply(job, now, LeaseOutbox(job.generation, token, until)).value;
    b := Apply(a, now, Enqueue(token, Accepted)).value;
    c := Apply(b, now, Deliver(token)).value;
  }

  /** A recognition job starts with no round used and its message due; the job of a workbook
      starts under review with its items and never meets the queue. */
  lemma NewJobsByFields(target: nat, source: SourceType, maxRounds: nat, now: nat, items: seq<Item>)
    ensures var job := NewAIJob(target, source, maxRounds, now);
            job.review == ReviewJob(Pending, target, source, 1, []) && job.generation == 1 && job.attemptCount == 0
            && job.maxAttempts == maxRounds && job.lease == None && job.attempts == map[]
            && job.outbox == map[1 := OutboxRow(false, now, None, 0)] && job.sent == {}
    ensures var job := NewSpreadsheetJob(target, source, items);
            job.review == ReviewJob(NeedsReview, target, source, 1, items) && job.outbox == map[] && job.lease == None
            && forall later: nat, event: Event ::
                 event.LeaseOutbox? || event.Claim? || event.Migrate? || event.Retry? || event.Abandon? ==>
                   Apply(job, later, event).None?
  {
    hide RoundTaken, AttemptIdUsed;
  }

  /** So a new recognition job with a round to spend can always be started. */
  lemma NewJobStarts(target: nat, source: SourceType, maxRounds: nat, now: nat, later: nat, token: nat, worker: nat,
      attempt: nat, until: nat, ttl: nat)
    requires maxRounds > 0 && ttl > 0 && now <= later
    ensures var job := NewAIJob(target, source, maxRounds, now);
            var r := ApplyAll(job, later, Start(1, token, worker, attempt, until, ttl));
            r.Some? && InHand(r.value, later, worker) && r.value.attemptCount == 1
  {
    hide JobInv, ApplyAll, InHand, Start;
    NewJobsAreOk(target, source, maxRounds, now, []);
    QueuedJobStarts(NewAIJob(target, source, maxRounds, now), later, token, worker, attempt, until, ttl);
  }

  lemma PendingHasNoLease(job: Job)
    requires JobInv(job) && job.review.state == Pending
    ensures job.lease == None
  {
  }

  /** A job that waits with its message due and undelivered, such as a new one or one that was
      retried, can always be brought to its next round. */
  lemma QueuedJobStarts(job: Job, now: nat, token: nat, worker: nat, attempt: nat, until: nat, ttl: nat)
    requires JobInv(job) && job.review.state == Pending && job.generation in job.outbox
    requires job.outbox[job.generation] == OutboxRow(false, job.outbox[job.generation].nextAt, None, 0)
    requires job.outbox[job.generation].nextAt <= now && job.attemptCount < job.maxAttempts
    requires token !in job.dispatches && worker !in job.claims && attempt !in job.attempts
    requires forall t :: t in job.claims ==> job.claims[t].attempt != attempt
    ensures var r := ApplyAll(job, now, Start(job.generation, token, worker, attempt, until, ttl));
            r.Some? && JobInv(r.value) && InHand(r.value, now, worker) == (ttl > 0)
            && r.value.attemptCount == job.attemptCount + 1 && job.generation in r.value.outbox
            && r.value.outbox[job.generation].delivered
  {
    hide JobInv, Apply, ApplyAll;
    var events := Start(job.generation, token, worker, attempt, until, ttl);
    var a, b, c := MessageGoesOut(job, now, token, until);
    ApplyKeepsInv(job, now, events[0]);
    ApplyKeepsInv(a, now, events[1]);
    ApplyKeepsInv(b, now, events[2]);
    PendingHasNoLease(job);
    ClaimMeaning(c, now, job.generation, worker, attempt, ttl);
    ApplyKeepsInv(c, now, events[3]);
    FourSteps(job, now, events, a, b, c, Apply(c, now, events[3]).value);
  }
}
