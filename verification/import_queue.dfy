/** One import job as the queue sees it: its row, its attempts and their provider calls, its
    outbox rows, and what each worker and dispatcher that ever touched it still remembers. */
module ImportQueue {
  import opened Common
  import opened Snapshots
  import opened Review

  datatype AttemptState = Running | Success | Interrupted | Waiting | Broken | Stopped

  datatype Call = Call(provider: nat, sequence: nat, open: bool)

  datatype Attempt = Attempt(generation: nat, round: nat, state: AttemptState, calls: seq<Call>)

  datatype OutboxRow = OutboxRow(delivered: bool, nextAt: nat, token: Option<nat>, leaseUntil: nat)

  datatype Lease = Lease(owner: nat, expires: nat)

  /** What a worker holds since its claim: where its walk through the providers stands, and
      the state it last wrote for a failed round. */
  datatype Claimed = Claimed(generation: nat, attempt: nat, round: nat, next: nat, verdict: Option<AttemptState>)

  /** What a dispatcher holds since it leased an outbox row; `enqueued` once it was told so. */
  datatype Dispatch = Dispatch(generation: nat, enqueued: bool)

  /** What became of a message: taken, refused for a task of the same identity, or taken while
      the dispatcher was told of an error. A message that was not taken leaves no trace. */
  datatype Answer = Accepted | AlreadyThere | LostAnswer

  /** `sent` holds the generations whose message was ever put on the queue, which may lose,
      repeat or delay it. `base` is the generation before the job's first outbox row. */
  datatype Job = Job(
    review: ReviewJob, generation: nat, base: nat, attemptCount: nat, maxAttempts: nat,
    lease: Option<Lease>, attempts: map<nat, Attempt>, outbox: map<nat, OutboxRow>,
    claims: map<nat, Claimed>, dispatches: map<nat, Dispatch>, sent: set<nat>)

  datatype Event =
    | LeaseOutbox(generation: nat, token: nat, until: nat)
    | Enqueue(token: nat, answer: Answer)
    | Deliver(token: nat)
    | Postpone(token: nat, nextAt: nat)
    | Claim(generation: nat, token: nat, attempt: nat, ttl: nat)
    | Heartbeat(token: nat, ttl: nat)
    | StartCall(token: nat, provider: nat)
    | FinishCall(token: nat)
    | Complete(token: nat, items: seq<Item>)
    | Defer(token: nat)
    | Fail(token: nat, retry: bool)
    | Settle(token: nat)
    | Abandon(generation: nat)
    | Migrate(maxRounds: nat)
    | Cancel
    | Retry(maxRounds: nat)
    | Decisions(expected: nat, decisions: seq<(nat, Decision)>)
    | Correction(expected: nat, item: nat, draft: StoredSchedule, existing: Option<Existing>)
    | CommitReview(expected: nat)
    | RollBackReview
    | UnanchorItems(rowId: nat)

  predicate IsAI(source: SourceType) {
    source == ImageAI || source == TextAI
  }

  // ----- creation

  /** The job persistAI inserts together with the outbox row of generation 1. */
  function NewAIJob(target: nat, source: SourceType, maxRounds: nat, now: nat): Job {
    Job(ReviewJob(Pending, target, source, 1, []), 1, 0, 0, maxRounds, None, map[],
        map[1 := OutboxRow(false, now, None, 0)], map[], map[], {})
  }

  /** The job createImport inserts with its finished preview; it never meets the queue. */
  function NewSpreadsheetJob(target: nat, source: SourceType, items: seq<Item>): Job {
    Job(ReviewJob(NeedsReview, target, source, 1, items), 1, 1, 0, 3, None, map[], map[], map[], map[], {})
  }

  /** A job left by the program before it had an outbox. */
  ghost predicate LegacyJob(job: Job) {
    job.base == job.generation && job.outbox == map[] && job.attempts == map[] && job.claims == map[]
    && job.dispatches == map[] && job.sent == {} && OneItemPerDate(job.review.items)
    && (job.lease.Some? ==> job.review.state == Parsing)
  }

  // ----- the guards of the statements

  predicate Open(job: Job) {
    job.review.state == Pending || job.review.state == Parsing
  }

  /** lease_owner IS NULL OR lease_expires_at < now. */
  predicate Unleased(job: Job, now: nat) {
    job.lease.None? || job.lease.value.expires < now
  }

  predicate Owns(job: Job, token: nat) {
    job.lease.Some? && job.lease.value.owner == token
  }

  /** The WHERE clause of every worker write: same generation, still parsing, still the
      owner, lease not run out. */
  predicate Holds(job: Job, now: nat, token: nat) {
    token in job.claims && job.claims[token].generation == job.generation
    && job.review.state == Parsing && Owns(job, token) && now < job.lease.value.expires
  }

  function WithState(job: Job, state: JobState): Job {
    job.(review := job.review.(state := state))
  }

  /** Leave the hands of any worker. */
  function Release(job: Job, state: JobState): Job {
    WithState(job, state).(lease := None)
  }

  // ----- attempts

  predicate Live(a: Attempt, generation: nat) {
    a.generation == generation && a.state == Running
  }

  /** UPDATE import_attempts SET state WHERE generation AND state='RUNNING'. */
  function EndRunning(attempts: map<nat, Attempt>, generation: nat, state: AttemptState): map<nat, Attempt> {
    map a | a in attempts :: if Live(attempts[a], generation) then attempts[a].(state := state) else attempts[a]
  }

  function CloseCall(c: Call): Call {
    c.(open := false)
  }

  function CloseCalls(calls: seq<Call>): (r: seq<Call>)
    ensures |r| == |calls| && forall i :: 0 <= i < |r| ==> r[i] == CloseCall(calls[i])
  {
    if calls == [] then [] else CloseCalls(calls[..|calls| - 1]) + [CloseCall(calls[|calls| - 1])]
  }

  /** Cancelling closes the open calls of the running attempt as well. */
  function StopRunning(attempts: map<nat, Attempt>, generation: nat): map<nat, Attempt> {
    map a | a in attempts ::
      if Live(attempts[a], generation)
      then attempts[a].(state := Stopped, calls := CloseCalls(attempts[a].calls)) else attempts[a]
  }

  function SettleAttempt(attempts: map<nat, Attempt>, id: nat, state: AttemptState): map<nat, Attempt> {
    if id in attempts && attempts[id].state == Running then attempts[id := attempts[id].(state := state)] else attempts
  }

  /** uq_attempt_round. */
  predicate RoundTaken(attempts: map<nat, Attempt>, generation: nat, round: nat) {
    exists a :: a in attempts && attempts[a].generation == generation && attempts[a].round == round
  }

  predicate AttemptIdUsed(job: Job, id: nat) {
    id in job.attempts || exists t :: t in job.claims && job.claims[t].attempt == id
  }

  // ----- one statement or transaction each; None when it changes no row

  function ClaimJob(job: Job, now: nat, generation: nat, token: nat, attempt: nat, ttl: nat): Option<Job> {
    if generation !in job.sent || generation != job.generation || !Open(job) then None
    else if job.lease.Some? && now < job.lease.value.expires then None
    else if job.attemptCount >= job.maxAttempts then Some(Release(job, Failed))
    else if token in job.claims || AttemptIdUsed(job, attempt) then None
    else
      var ended := EndRunning(job.attempts, generation, Interrupted);
      var round := job.attemptCount + 1;
      if RoundTaken(ended, generation, round) then None
      else Some(WithState(job, Parsing).(
        attemptCount := round, lease := Some(Lease(token, now + ttl)),
        attempts := ended[attempt := Attempt(generation, round, Running, [])],
        claims := job.claims[token := Claimed(generation, attempt, round, 0, None)]))
  }

  /** The recorder's INSERT, made where the worker's walk through the provider list stands:
      at the position it has reached or, past providers it leaves out, a later one. */
  function RecordCall(job: Job, now: nat, token: nat, provider: nat): Option<Job> {
    if !Holds(job, now, token) || provider < job.claims[token].next then None
    else
      var id := job.claims[token].attempt;
      if id !in job.attempts then None
      else
        var calls := job.attempts[id].calls;
        Some(job.(
          attempts := job.attempts[id := job.attempts[id].(calls := calls + [Call(provider, |calls| + 1, true)])],
          claims := job.claims[token := job.claims[token].(next := provider + 1)]))
  }

  /** The recorder's UPDATE of the call it started last. */
  function RecordAnswer(job: Job, now: nat, token: nat): Option<Job> {
    if !Holds(job, now, token) then None
    else
      var id := job.claims[token].attempt;
      if id !in job.attempts || job.attempts[id].calls == [] then None
      else
        var calls := job.attempts[id].calls;
        Some(job.(attempts := job.attempts[id := job.attempts[id].(
          calls := calls[|calls| - 1 := CloseCall(calls[|calls| - 1])])]))
  }

  /** Complete. A job already under review is left alone; a repeated date violates the
      unique index and undoes the transaction. */
  ghost function CompleteJob(job: Job, now: nat, token: nat, items: seq<Item>): Option<Job> {
    if job.review.state == NeedsReview then None
    else if !Holds(job, now, token) || !OneItemPerDate(items) then None
    else Some(job.(
      review := job.review.(state := NeedsReview, items := items, reviewVersion := job.review.reviewVersion + 1),
      lease := None,
      attempts := SettleAttempt(job.attempts, job.claims[token].attempt, Success)))
  }

  /** A round that called nobody is given back. */
  function DeferJob(job: Job, now: nat, token: nat): Option<Job> {
    if !Holds(job, now, token) then None
    else
      var id := job.claims[token].attempt;
      if id in job.attempts && job.attempts[id].calls != [] then None
      else if job.attemptCount == 0 then None
      else Some(Release(job, Pending).(attemptCount := job.attemptCount - 1, attempts := job.attempts - {id}))
  }

  /** The first statement of a failure; the attempt row follows in a second one. */
  function FailJob(job: Job, now: nat, token: nat, retry: bool): Option<Job> {
    if !Holds(job, now, token) then None
    else
      var again := retry && job.claims[token].round < job.maxAttempts;
      Some(Release(job, if again then Pending else Failed).(
        claims := job.claims[token := job.claims[token].(verdict := Some(if again then Waiting else Broken))]))
  }

  function SettleFailed(job: Job, token: nat): Option<Job> {
    if token !in job.claims || job.claims[token].verdict.None? then None
    else Some(job.(attempts := SettleAttempt(job.attempts, job.claims[token].attempt, job.claims[token].verdict.value)))
  }

  /** finalizeQueueFailure and the updates of reconcile. */
  function AbandonJob(job: Job, now: nat, generation: nat): Option<Job> {
    if generation !in job.sent || generation != job.generation || !Open(job) || !Unleased(job, now) then None
    else Some(Release(job, Failed))
  }

  /** A new generation with its own outbox row. */
  function NextGeneration(job: Job, now: nat, maxRounds: nat): Job {
    Release(job, Pending).(
      generation := job.generation + 1, attemptCount := 0, maxAttempts := maxRounds,
      outbox := job.outbox[job.generation + 1 := OutboxRow(false, now, None, 0)])
  }

  function MigrateJob(job: Job, now: nat, maxRounds: nat): Option<Job> {
    if job.review.source != ImageAI || !Open(job) || !Unleased(job, now) || job.outbox != map[] then None
    else Some(NextGeneration(job, now, maxRounds))
  }

  function RetryJob(job: Job, now: nat, maxRounds: nat): Option<Job> {
    if job.review.state != Failed || !IsAI(job.review.source) then None else Some(NextGeneration(job, now, maxRounds))
  }

  function CancelJob(job: Job): Option<Job> {
    if job.review.state !in {Uploaded, Pending, Parsing, NeedsReview} then None
    else Some(Release(job, Cancelled).(attempts := StopRunning(job.attempts, job.generation)))
  }

  // ----- dispatching

  function LeaseRow(job: Job, now: nat, generation: nat, token: nat, until: nat): Option<Job> {
    if generation !in job.outbox || token in job.dispatches then None
    else
      var row := job.outbox[generation];
      if row.delivered || row.nextAt > now || (row.token.Some? && !(row.leaseUntil < now)) then None
      else Some(job.(outbox := job.outbox[generation := row.(token := Some(token), leaseUntil := until)],
                     dispatches := job.dispatches[token := Dispatch(generation, false)]))
  }

  /** EnqueueContext. A refusal is only possible for a task that was taken before. */
  function EnqueueMessage(job: Job, token: nat, answer: Answer): Option<Job> {
    if token !in job.dispatches then None
    else
      var g := job.dispatches[token].generation;
      if answer == AlreadyThere && g !in job.sent then None
      else if answer == LostAnswer then Some(job.(sent := job.sent + {g}))
      else Some(job.(dispatches := job.dispatches[token := Dispatch(g, true)], sent := job.sent + {g}))
  }

  predicate RowIsLeasedBy(job: Job, token: nat) {
    token in job.dispatches && job.dispatches[token].generation in job.outbox
    && job.outbox[job.dispatches[token].generation].token == Some(token)
  }

  function DeliverRow(job: Job, token: nat): Option<Job> {
    if !RowIsLeasedBy(job, token) || !job.dispatches[token].enqueued then None
    else
      var g := job.dispatches[token].generation;
      Some(job.(outbox := job.outbox[g := job.outbox[g].(delivered := true, token := None)]))
  }

  function PostponeRow(job: Job, token: nat, nextAt: nat): Option<Job> {
    if !RowIsLeasedBy(job, token) || job.dispatches[token].enqueued then None
    else
      var g := job.dispatches[token].generation;
      Some(job.(outbox := job.outbox[g := job.outbox[g].(token := None, nextAt := nextAt)]))
  }

  // ----- people

  function Edited(job: Job, edit: Result<ReviewJob, ReviewError>): Option<Job> {
    match edit
    case Ok(review) => Some(job.(review := review))
    case Err(_) => None
  }

  /** The job's side of a commit that succeeded. */
  function CommitJob(job: Job, expected: nat): Option<Job> {
    if job.review.state != NeedsReview || !NamesVersion(job.review, expected) then None
    else Some(WithState(job, Completed))
  }

  function RollBackJob(job: Job): Option<Job> {
    if job.review.state != Completed then None else Some(WithState(job, RolledBack))
  }

  ghost function Apply(job: Job, now: nat, event: Event): Option<Job> {
    match event
    case LeaseOutbox(generation, token, until) => LeaseRow(job, now, generation, token, until)
    case Enqueue(token, answer) => EnqueueMessage(job, token, answer)
    case Deliver(token) => DeliverRow(job, token)
    case Postpone(token, nextAt) => PostponeRow(job, token, nextAt)
    case Claim(generation, token, attempt, ttl) => ClaimJob(job, now, generation, token, attempt, ttl)
    case Heartbeat(token, ttl) =>
      if Holds(job, now, token) then Some(job.(lease := Some(Lease(token, now + ttl)))) else None
    case StartCall(token, provider) => RecordCall(job, now, token, provider)
    case FinishCall(token) => RecordAnswer(job, now, token)
    case Complete(token, items) => CompleteJob(job, now, token, items)
    case Defer(token) => DeferJob(job, now, token)
    case Fail(token, retry) => FailJob(job, now, token, retry)
    case Settle(token) => SettleFailed(job, token)
    case Abandon(generation) => AbandonJob(job, now, generation)
    case Migrate(maxRounds) => MigrateJob(job, now, maxRounds)
    case Cancel => CancelJob(job)
    case Retry(maxRounds) => RetryJob(job, now, maxRounds)
    case Decisions(expected, decisions) => Edited(job, UpdateDecisions(job.review, expected, decisions))
    case Correction(expected, item, draft, existing) =>
      Edited(job, Correct(job.review, expected, item, draft, existing))
    case CommitReview(expected) => CommitJob(job, expected)
    case RollBackReview => RollBackJob(job)
    case UnanchorItems(rowId) => Some(job.(review := job.review.(items := Unanchor(job.review.items, rowId))))
  }

  // ----- the invariant

  /** The attempts of the current generation are exactly rounds 1..attemptCount. */
  ghost predicate Rounds(job: Job) {
    (forall r :: 1 <= r <= job.attemptCount ==> RoundTaken(job.attempts, job.generation, r))
    && forall a :: a in job.attempts && job.attempts[a].generation == job.generation ==>
         1 <= job.attempts[a].round <= job.attemptCount
  }

  predicate SameRound(a: Attempt, b: Attempt) {
    a.generation == b.generation && a.round == b.round
  }

  ghost predicate AttemptsOk(job: Job) {
    (forall a :: a in job.attempts ==>
       job.base < job.attempts[a].generation <= job.generation && CallsOk(job.attempts[a].calls))
    && (forall a, b :: a in job.attempts && b in job.attempts && SameRound(job.attempts[a], job.attempts[b]) ==> a == b)
    && forall a :: a in job.attempts && Live(job.attempts[a], job.generation) ==>
        job.attempts[a].round == job.attemptCount
  }

  ghost predicate CallsOk(calls: seq<Call>) {
    (forall i :: 0 <= i < |calls| ==> calls[i].sequence == i + 1)
    && forall i, j :: 0 <= i < j < |calls| ==> calls[i].provider < calls[j].provider
  }

  ghost predicate CallsBelow(calls: seq<Call>, position: nat) {
    forall i :: 0 <= i < |calls| ==> calls[i].provider < position
  }

  /** A worker has asked nobody at or after the position its walk has reached. */
  ghost predicate WalksOk(job: Job) {
    forall t :: t in job.claims && job.claims[t].attempt in job.attempts ==>
      CallsBelow(job.attempts[job.claims[t].attempt].calls, job.claims[t].next)
  }

  /** A worker's memory of its attempt is right for as long as the row exists. */
  ghost predicate ClaimsOk(job: Job) {
    (forall t, u :: t in job.claims && u in job.claims && job.claims[t].attempt == job.claims[u].attempt ==> t == u)
    && forall t :: t in job.claims ==>
      job.claims[t].generation <= job.generation && job.base < job.claims[t].generation
      && (job.claims[t].attempt in job.attempts ==>
            job.attempts[job.claims[t].attempt].generation == job.claims[t].generation
            && job.attempts[job.claims[t].attempt].round == job.claims[t].round)
      && (job.claims[t].verdict.Some? ==> job.claims[t].verdict.value in {Waiting, Broken})
  }

  /** The owner of the lease runs the last round. */
  ghost predicate OwnerOk(job: Job) {
    job.lease.Some? && job.generation > job.base ==>
      job.lease.value.owner in job.claims
      && job.claims[job.lease.value.owner].generation == job.generation
      && job.claims[job.lease.value.owner].round == job.attemptCount
      && job.claims[job.lease.value.owner].verdict.None?
      && job.claims[job.lease.value.owner].attempt in job.attempts
      && job.attempts[job.claims[job.lease.value.owner].attempt].state == Running
  }

  ghost predicate OutboxOk(job: Job) {
    job.base <= job.generation
    && (forall g :: g in job.outbox <==> job.base < g <= job.generation)
    && (forall t :: t in job.dispatches ==>
          job.dispatches[t].generation in job.outbox
          && (job.dispatches[t].enqueued ==> job.dispatches[t].generation in job.sent))
    && (forall g :: g in job.sent ==> g in job.outbox)
    && forall g :: g in job.outbox && job.outbox[g].delivered ==> g in job.sent
  }

  /** A lease exactly while parsing. Before its first outbox row a legacy job may be parsing
      without one. */
  ghost predicate LeaseOk(job: Job) {
    (job.lease.Some? ==> job.review.state == Parsing)
    && (job.generation > job.base ==> (job.review.state == Parsing ==> job.lease.Some?))
  }

  ghost predicate JobInv(job: Job) {
    LeaseOk(job) && OutboxOk(job) && ClaimsOk(job) && OwnerOk(job) && AttemptsOk(job) && WalksOk(job)
    && (job.generation > job.base ==> Rounds(job) && job.attemptCount <= job.maxAttempts)
    && OneItemPerDate(job.review.items)
  }

  lemma NewJobsAreOk(target: nat, source: SourceType, maxRounds: nat, now: nat, items: seq<Item>)
    requires OneItemPerDate(items)
    ensures JobInv(NewAIJob(target, source, maxRounds, now)) && JobInv(NewSpreadsheetJob(target, source, items))
  {
  }

  lemma LegacyJobIsOk(job: Job)
    requires LegacyJob(job)
    ensures JobInv(job)
  {
  }
}
