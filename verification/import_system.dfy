/** All jobs together: creation under idempotency keys, the identities of queue entries, and
    how the job protocol and the ledger fit. */
module ImportSystem {
  import opened Common
  import opened Calendar
  import opened Snapshots
  import opened Review
  import opened ImportQueue
  import opened ImportQueueInvariant
  import opened ImportQueueRuns
  import DateOrder
  import Ledger
  import LedgerInvariant
  import LedgerJobs
  import LedgerOutcomes

  // ----- identities of queue entries

  function TaskID(job: nat, generation: nat): string {
    "shiftory-ai-" + Decimal(job) + "-" + Decimal(generation)
  }

  lemma {:induction false} DecimalInjective(a: nat, b: nat)
    requires Decimal(a) == Decimal(b)
    ensures a == b
  {
    DecimalNonEmpty(a / 10);
    DecimalNonEmpty(b / 10);
    var s := Decimal(a);
    if a >= 10 {
      assert Decimal(b)[..|s| - 1] == Decimal(a / 10);
      DecimalInjective(a / 10, b / 10);
      assert s[|s| - 1] == Digit(a % 10) && Decimal(b)[|s| - 1] == Digit(b % 10);
    }
  }

  lemma DecimalNonEmpty(n: nat)
    ensures |Decimal(n)| > 0
  {
  }

  lemma {:induction false} DecimalHasNoDash(n: nat)
    ensures '-' !in Decimal(n)
  {
    if n >= 10 {
      DecimalHasNoDash(n / 10);
    }
  }

  lemma FirstDash(a: string, b: string, c: string, d: string)
    requires '-' !in a && '-' !in c && a + "-" + b == c + "-" + d
    ensures a == c && b == d
  {
    var s := a + "-" + b;
    assert forall i :: 0 <= i < |a| ==> s[i] == a[i] != '-';
    assert forall i :: 0 <= i < |c| ==> s[i] == c[i] != '-';
    assert s[|a|] == '-' && s[|c|] == '-';
    assert a == s[..|a|] && c == s[..|c|];
    assert b == s[|a| + 1..] && d == s[|c| + 1..];
  }

  /** An entry identity names one job and one generation. */
  lemma TaskIDInjective(job: nat, generation: nat, job': nat, generation': nat)
    requires TaskID(job, generation) == TaskID(job', generation')
    ensures job == job' && generation == generation'
  {
    var prefix := "shiftory-ai-";
    var s, s' := Decimal(job) + "-" + Decimal(generation), Decimal(job') + "-" + Decimal(generation');
    assert TaskID(job, generation) == prefix + s && TaskID(job', generation') == prefix + s';
    assert s == (prefix + s)[|prefix|..] && s' == (prefix + s')[|prefix|..];
    DecimalHasNoDash(job);
    DecimalHasNoDash(job');
    FirstDash(Decimal(job), Decimal(generation), Decimal(job'), Decimal(generation'));
    DecimalInjective(job, job');
    DecimalInjective(generation, generation');
  }

  // ----- the system

  datatype IdemKey = IdemKey(workspace: nat, key: string)

  datatype Created = Created(job: nat, fingerprint: string, uploader: nat)

  datatype Message = Message(job: nat, generation: nat)

  /** `tasks` are the identities of all entries the queue ever took, with their payload. */
  datatype System = System(jobs: map<nat, Job>, tasks: map<string, Message>, keys: map<IdemKey, Created>)

  datatype CreationError = KeyTooLong | IdempotencyConflict

  /** persistAI: the same key with the same input and uploader finds the first job again. */
  function PersistAI(sys: System, now: nat, id: nat, key: IdemKey, uploader: nat, fingerprint: string,
                     target: nat, source: SourceType, maxRounds: nat): Result<(System, nat), CreationError>
  {
    if |key.key| > 128 then Err(KeyTooLong)
    else if key in sys.keys then
      if sys.keys[key].fingerprint != fingerprint || sys.keys[key].uploader != uploader then Err(IdempotencyConflict)
      else Ok((sys, sys.keys[key].job))
    else Ok((sys.(jobs := sys.jobs[id := NewAIJob(target, source, maxRounds, now)],
                  keys := sys.keys[key := Created(id, fingerprint, uploader)]), id))
  }

  datatype Action =
    | CreateAI(id: nat, key: IdemKey, uploader: nat, fingerprint: string, target: nat, source: SourceType,
        maxRounds: nat)
    | Upload(id: nat, key: IdemKey, uploader: nat, target: nat, source: SourceType, items: seq<Item>)
    | QueueAccepts(id: nat, token: nat, heard: bool)
    | QueueConflicts(id: nat, token: nat)
    | JobStep(id: nat, event: Event)

  function WithJob(sys: System, id: nat, job: Job): System {
    sys.(jobs := sys.jobs[id := job])
  }

  /** The dispatcher notes an answer of the queue; it does not look at the job's history. */
  function NoteAnswer(job: Job, token: nat): Job
    requires token in job.dispatches
  {
    job.(dispatches := job.dispatches[token := Dispatch(job.dispatches[token].generation, true)])
  }

  ghost predicate Step(sys: System, now: nat, action: Action, next: System) {
    match action
    case CreateAI(id, key, uploader, fingerprint, target, source, maxRounds) =>
      id !in sys.jobs && IsAI(source)
      && PersistAI(sys, now, id, key, uploader, fingerprint, target, source, maxRounds).Ok?
      && next == PersistAI(sys, now, id, key, uploader, fingerprint, target, source, maxRounds).value.0
    case Upload(id, key, uploader, target, source, items) =>
      id !in sys.jobs && key !in sys.keys && !IsAI(source) && OneItemPerDate(items)
      && next == sys.(jobs := sys.jobs[id := NewSpreadsheetJob(target, source, items)],
                      keys := sys.keys[key := Created(id, "", uploader)])
    case QueueAccepts(id, token, heard) =>
      id in sys.jobs && token in sys.jobs[id].dispatches
      && var g := sys.jobs[id].dispatches[token].generation;
         var noted := if heard then NoteAnswer(sys.jobs[id], token) else sys.jobs[id];
         next == WithJob(sys, id, noted.(sent := sys.jobs[id].sent + {g})).(
                   tasks := sys.tasks[TaskID(id, g) := Message(id, g)])
    case QueueConflicts(id, token) =>
      id in sys.jobs && token in sys.jobs[id].dispatches
      && TaskID(id, sys.jobs[id].dispatches[token].generation) in sys.tasks
      && next == WithJob(sys, id, NoteAnswer(sys.jobs[id], token))
    case JobStep(id, event) =>
      id in sys.jobs && !event.Enqueue?
      && Apply(sys.jobs[id], now, event).Some? && next == WithJob(sys, id, Apply(sys.jobs[id], now, event).value)
  }

  /** Every identity was taken for the job and generation it spells, and messages are
      only ever of those. */
  ghost predicate TasksOk(sys: System) {
    forall t :: t in sys.tasks ==>
      t == TaskID(sys.tasks[t].job, sys.tasks[t].generation)
      && sys.tasks[t].job in sys.jobs && sys.tasks[t].generation in sys.jobs[sys.tasks[t].job].sent
  }

  ghost predicate SysInv(sys: System) {
    (forall id :: id in sys.jobs ==> JobInv(sys.jobs[id])) && TasksOk(sys)
    && forall k :: k in sys.keys ==> sys.keys[k].job in sys.jobs
  }

  /** A conflict of identities can only mean the very same job and generation, so the
      dispatcher is right to call the row delivered. */
  lemma ConflictMeansSent(sys: System, id: nat, token: nat)
    requires TasksOk(sys) && id in sys.jobs && token in sys.jobs[id].dispatches
    requires TaskID(id, sys.jobs[id].dispatches[token].generation) in sys.tasks
    ensures EnqueueMessage(sys.jobs[id], token, AlreadyThere) == Some(NoteAnswer(sys.jobs[id], token))
  {
    hide TaskID;
    var g := sys.jobs[id].dispatches[token].generation;
    var m := sys.tasks[TaskID(id, g)];
    TaskIDInjective(id, g, m.job, m.generation);
    assert sys.jobs[id].sent + {g} == sys.jobs[id].sent;
  }

  /** The job event behind an action. */
  function EventOf(action: Action, id: nat): Option<Event> {
    match action
    case QueueAccepts(j, token, heard) =>
      if j == id then Some(Enqueue(token, if heard then Accepted else LostAnswer)) else None
    case QueueConflicts(j, token) => if j == id then Some(Enqueue(token, AlreadyThere)) else None
    case JobStep(j, event) => if j == id then Some(event) else None
    case _ => None
  }

  /** Each job of the system follows the job protocol. */
  lemma StepProjects(sys: System, now: nat, action: Action, next: System, id: nat)
    requires TasksOk(sys) && Step(sys, now, action, next) && id in sys.jobs
    ensures id in next.jobs && Happens(sys.jobs[id], Moment(now, EventOf(action, id)), next.jobs[id])
  {
    hide TaskID, ClaimJob, TasksOk;
    if action.QueueConflicts? {
      ConflictMeansSent(sys, action.id, action.token);
    }
  }

  lemma SentGrows(job: Job, now: nat, event: Event)
    requires Apply(job, now, event).Some?
    ensures job.sent <= Apply(job, now, event).value.sent && Apply(job, now, event).value.base == job.base
  {
    hide OneItemPerDate, EndRunning, StopRunning, RoundTaken, Unanchor, UpdateDecisions, Correct;
  }

  lemma StepKeepsTasks(sys: System, now: nat, action: Action, next: System)
    requires TasksOk(sys) && Step(sys, now, action, next)
    ensures TasksOk(next)
  {
    hide TaskID, Apply, NewAIJob, NewSpreadsheetJob;
    if action.JobStep? {
      SentGrows(sys.jobs[action.id], now, action.event);
    }
  }

  lemma StepKeepsInv(sys: System, now: nat, action: Action, next: System)
    requires SysInv(sys) && Step(sys, now, action, next)
    ensures SysInv(next)
  {
    hide TaskID, Apply, JobInv, TasksOk, NewAIJob, NewSpreadsheetJob;
    StepKeepsTasks(sys, now, action, next);
    if action.CreateAI? || action.Upload? {
      NewJobsAreOk(action.target, action.source, if action.CreateAI? then action.maxRounds else 0, now,
                   if action.Upload? then action.items else []);
    }
    forall id | id in next.jobs ensures JobInv(next.jobs[id]) {
      if id in sys.jobs {
        StepProjects(sys, now, action, next, id);
        if EventOf(action, id).Some? {
          ApplyKeepsInv(sys.jobs[id], now, EventOf(action, id).value);
        }
      }
    }
  }

  // ----- runs of the system

  datatype SystemRun = SystemRun(states: seq<System>, actions: seq<(nat, Action)>)

  ghost predicate ValidRun(run: SystemRun) {
    |run.states| == |run.actions| + 1 && SysInv(run.states[0])
    && (forall i :: 0 <= i < |run.actions| ==>
        Step(run.states[i], run.actions[i].0, run.actions[i].1, run.states[i + 1]))
    && forall i, k :: 0 <= i < k < |run.actions| ==> run.actions[i].0 <= run.actions[k].0
  }

  lemma {:induction false} SysInvAlways(run: SystemRun, i: nat)
    requires ValidRun(run) && i < |run.states|
    ensures SysInv(run.states[i])
  {
    hide SysInv, Step;
    if i > 0 {
      SysInvAlways(run, i - 1);
      StepKeepsInv(run.states[i - 1], run.actions[i - 1].0, run.actions[i - 1].1, run.states[i - 1 + 1]);
    }
  }

  lemma SysTasksOk(sys: System)
    requires SysInv(sys)
    ensures TasksOk(sys)
  {
    hide TasksOk;
  }

  lemma {:induction false} JobsStay(run: SystemRun, i: nat, k: nat, id: nat)
    requires ValidRun(run) && i <= k < |run.states| && id in run.states[i].jobs
    ensures id in run.states[k].jobs && run.states[k].jobs[id].base == run.states[i].jobs[id].base
    ensures run.states[i].jobs[id].sent <= run.states[k].jobs[id].sent
    decreases k - i
  {
    hide SysInv, Step, Apply;
    if i < k {
      JobsStay(run, i, k - 1, id);
      SysInvAlways(run, k - 1);
      SysTasksOk(run.states[k - 1]);
      var now, action := run.actions[k - 1].0, run.actions[k - 1].1;
      assert Step(run.states[k - 1], now, action, run.states[k - 1 + 1]);
      StepProjects(run.states[k - 1], now, action, run.states[k], id);
      if EventOf(action, id).Some? {
        SentGrows(run.states[k - 1].jobs[id], now, EventOf(action, id).value);
      }
    }
  }

  /** Seen from one job, a run of the whole system is a run of the job protocol, so all that
      is proved of the latter holds of every job. */
  ghost function View(run: SystemRun, from: nat, id: nat): Trace
    requires ValidRun(run) && from < |run.states|
    requires forall k :: from <= k < |run.states| ==> id in run.states[k].jobs
  {
    Trace(seq(|run.states| - from, k requires 0 <= k < |run.states| - from => run.states[from + k].jobs[id]),
          seq(|run.actions| - from, k requires 0 <= k < |run.actions| - from =>
            Moment(run.actions[from + k].0, EventOf(run.actions[from + k].1, id))))
  }

  lemma ViewIsTrace(run: SystemRun, from: nat, id: nat)
    requires ValidRun(run) && from < |run.states| && id in run.states[from].jobs
    ensures forall k :: from <= k < |run.states| ==> id in run.states[k].jobs
    ensures ValidTrace(View(run, from, id))
  {
    hide Step, Happens, JobInv, EventOf;
    forall k | from <= k < |run.states| ensures id in run.states[k].jobs {
      JobsStay(run, from, k, id);
    }
    SysInvAlways(run, from);
    var trace := View(run, from, id);
    forall k | 0 <= k < |trace.moments| ensures Happens(trace.jobs[k], trace.moments[k], trace.jobs[k + 1]) {
      SysInvAlways(run, from + k);
      assert Step(run.states[from + k], run.actions[from + k].0, run.actions[from + k].1, run.states[from + k + 1]);
      StepProjects(run.states[from + k], run.actions[from + k].0, run.actions[from + k].1,
                   run.states[from + k + 1], id);
    }
  }

  lemma SystemJob(sys: System, id: nat)
    requires SysInv(sys) && id in sys.jobs
    ensures JobInv(sys.jobs[id])
  {
    hide JobInv, TasksOk;
  }

  /** Transactional outbox: a job made by persistAI has exactly one row for each generation
      from 1 on, and a delivered row means the queue took a message for just that job and
      generation. */
  lemma OutboxComplete(run: SystemRun, i: nat, k: nat, id: nat)
    requires ValidRun(run) && i < k < |run.states| && id !in run.states[i].jobs && id in run.states[i + 1].jobs
    requires run.actions[i].1.CreateAI?
    ensures id in run.states[k].jobs
    ensures var job := run.states[k].jobs[id];
            forall g :: (g in job.outbox <==> 1 <= g <= job.generation)
                        && (g in job.outbox && job.outbox[g].delivered ==> g in job.sent)
  {
    hide Apply, SysInv, JobInv, TaskID;
    assert Step(run.states[i], run.actions[i].0, run.actions[i].1, run.states[i + 1]);
    JobsStay(run, i + 1, k, id);
    SysInvAlways(run, k);
    SystemJob(run.states[k], id);
    InvOutbox(run.states[k].jobs[id]);
  }

  /** A generation counts as sent only after the queue accepted it. */
  lemma {:induction false} SentWasAccepted(run: SystemRun, i: nat, k: nat, id: nat, generation: nat)
    requires ValidRun(run) && i <= k < |run.states| && id in run.states[i].jobs && id in run.states[k].jobs
    requires generation !in run.states[i].jobs[id].sent && generation in run.states[k].jobs[id].sent
    ensures exists j :: i <= j < k && Accepts(run, j, id, generation)
    decreases k - i
  {
    hide Apply, SysInv, TaskID;
    if i < k {
      JobsStay(run, i, k - 1, id);
      if generation in run.states[k - 1].jobs[id].sent {
        SentWasAccepted(run, i, k - 1, id, generation);
      } else {
        var now, action := run.actions[k - 1].0, run.actions[k - 1].1;
        assert Step(run.states[k - 1], now, action, run.states[k - 1 + 1]);
        if action.JobStep? && action.id == id {
          OnlyEnqueueSends(run.states[k - 1].jobs[id], now, action.event);
        }
        assert Accepts(run, k - 1, id, generation);
      }
    }
  }

  ghost predicate Accepts(run: SystemRun, j: nat, id: nat, generation: nat)
    requires |run.states| == |run.actions| + 1 && j < |run.actions|
  {
    run.actions[j].1.QueueAccepts? && run.actions[j].1.id == id && id in run.states[j].jobs
    && run.actions[j].1.token in run.states[j].jobs[id].dispatches
    && run.states[j].jobs[id].dispatches[run.actions[j].1.token].generation == generation
  }

  lemma OnlyEnqueueSends(job: Job, now: nat, event: Event)
    requires Apply(job, now, event).Some? && !event.Enqueue?
    ensures Apply(job, now, event).value.sent == job.sent
  {
    hide OneItemPerDate, EndRunning, StopRunning, RoundTaken, Unanchor, UpdateDecisions, Correct;
  }

  // ----- idempotent creation

  lemma {:induction false} KeysStay(run: SystemRun, i: nat, k: nat, key: IdemKey)
    requires ValidRun(run) && i <= k < |run.states| && key in run.states[i].keys
    ensures key in run.states[k].keys && run.states[k].keys[key] == run.states[i].keys[key]
    decreases k - i
  {
    hide Apply, SysInv, TaskID;
    if i < k {
      KeysStay(run, i, k - 1, key);
      assert Step(run.states[k - 1], run.actions[k - 1].0, run.actions[k - 1].1, run.states[k - 1 + 1]);
    }
  }

  /** Repeating a creation later, with whatever in between, finds the first job and changes
      nothing; the same key for another input or uploader is refused. */
  lemma CreationIsIdempotent(run: SystemRun, i: nat, k: nat, id: nat, key: IdemKey, uploader: nat, fingerprint: string,
                             uploader': nat, fingerprint': string, target: nat, source: SourceType,
                             maxRounds: nat, now: nat)
    requires ValidRun(run) && i < k < |run.states| && key !in run.states[i].keys
    requires run.actions[i].1 == CreateAI(id, key, uploader, fingerprint, target, source, maxRounds)
    ensures forall other: nat ::
            PersistAI(run.states[k], now, other, key, uploader', fingerprint', target, source, maxRounds) ==
              if uploader' == uploader && fingerprint' == fingerprint then Ok((run.states[k], id))
              else Err(IdempotencyConflict)
  {
    hide Apply, SysInv;
    assert Step(run.states[i], run.actions[i].0, run.actions[i].1, run.states[i + 1]);
    KeysStay(run, i + 1, k, key);
  }

  // ----- the ledger's view of the same job

  /** Such a step leaves the review alone, or is one of an open job and leaves it open. */
  lemma StepStaysOpen(job: Job, now: nat, event: Event)
    requires Apply(job, now, event).Some?
    requires !event.CommitReview? && !event.RollBackReview? && !event.UnanchorItems?
    ensures var next := Apply(job, now, event).value.review;
            next == job.review
            || (job.review.state !in {Completed, RolledBack} && next.state !in {Completed, RolledBack}
                && next.target == job.review.target)
  {
    hide OneItemPerDate, EndRunning, StopRunning, SettleAttempt, RoundTaken, AttemptIdUsed, Unanchor, DecideAll,
         CorrectItems, HasItem, RowIsLeasedBy;
  }

  lemma InvItems(job: Job)
    requires JobInv(job)
    ensures OneItemPerDate(job.review.items)
  {
    hide LeaseOk, OutboxOk, ClaimsOk, OwnerOk, AttemptsOk, WalksOk, Rounds, OneItemPerDate;
  }

  /** Every step of the protocol other than commit, rollback and the anchors a deleted row
      takes along is to the ledger a mere change of an open job. */
  lemma QueueStepIsReviewChange(db: Ledger.Db, id: nat, job: Job, now: nat, event: Event)
    requires id in db.jobs && db.jobs[id] == job.review && JobInv(job) && Apply(job, now, event).Some?
    requires !event.CommitReview? && !event.RollBackReview? && !event.UnanchorItems?
    ensures var next := Apply(job, now, event).value.review;
            next == job.review || LedgerInvariant.ReviewChange(db, id, next)
  {
    hide Apply, JobInv, OneItemPerDate, SameButAnchors;
    StepStaysOpen(job, now, event);
    ApplyKeepsInv(job, now, event);
    InvItems(Apply(job, now, event).value);
    StepMovesVersion(job, now, event);
  }

  /** The ledger commits a job exactly when the protocol's state and version test passes, the
      preview holds a trusted item, and every item is fine against the stored days; the job is
      then as the protocol leaves it. A completed job is left alone. */
  lemma CommitAgrees(db: Ledger.Db, id: nat, job: Job, expected: nat, actor: nat)
    requires LedgerInvariant.Inv(db) && Ledger.RowsRenderable(db) && id in db.jobs && db.jobs[id] == job.review
    ensures job.review.state == Completed ==> Ledger.Commit(db, id, expected, actor) == Ok(db)
    ensures job.review.state != Completed ==>
              (Ledger.Commit(db, id, expected, actor).Ok? <==>
               CommitJob(job, expected).Some? && Ledger.AnyTrusted(job.review.items)
               && LedgerOutcomes.AllFine(db, job.review, id, job.review.items, actor))
    ensures job.review.state != Completed && Ledger.Commit(db, id, expected, actor).Ok? ==>
              var next := Ledger.Commit(db, id, expected, actor).value;
              next.jobs == db.jobs[id := CommitJob(job, expected).value.review]
  {
    hide Ledger.CommitItems, LedgerOutcomes.AllFine, LedgerOutcomes.CommitOutcome, LedgerInvariant.Inv;
    if job.review.state == NeedsReview {
      LedgerOutcomes.CommitEffect(db, id, expected, actor);
      var sorted := DateOrder.ByDate(job.review.items, Ledger.ItemDate);
      if Ledger.Commit(db, id, expected, actor).Ok? {
        LedgerJobs.CommitItemsKeepJobs(db, job.review, id, sorted, actor);
      }
    }
  }

  /** Deleting the rows of a list, one after another, as each job's items see it. */
  ghost function UnanchorEach(job: Job, now: nat, rows: seq<nat>): Job {
    if rows == [] then job
    else Apply(UnanchorEach(job, now, rows[..|rows| - 1]), now, UnanchorItems(rows[|rows| - 1])).value
  }

  lemma LoosenOne(was: ReviewJob, job: Job, gone: set<nat>, row: nat)
    requires LedgerJobs.JobFollows(was, job.review, gone)
    ensures LedgerJobs.JobFollows(was, job.review.(items := Unanchor(job.review.items, row)), gone + {row})
  {
  }

  lemma UnanchorForm(job: Job, now: nat, row: nat)
    ensures Apply(job, now, UnanchorItems(row)) ==
            Some(job.(review := job.review.(items := Unanchor(job.review.items, row))))
  {
  }

  lemma {:induction false} UnanchorEachLoosens(job: Job, now: nat, rows: seq<nat>, gone: set<nat>)
    requires forall r :: r in rows <==> r in gone
    ensures LedgerJobs.JobFollows(job.review, UnanchorEach(job, now, rows).review, gone)
    ensures UnanchorEach(job, now, rows) == job.(review := UnanchorEach(job, now, rows).review)
  {
    if rows == [] {
      assert gone == {};
    } else {
      hide Apply, LedgerJobs.JobFollows;
      var init, last := rows[..|rows| - 1], rows[|rows| - 1];
      assert forall r :: r in rows <==> r in init || r == last;
      var earlier := set r | r in init;
      UnanchorEachLoosens(job, now, init, earlier);
      UnanchorForm(UnanchorEach(job, now, init), now, last);
      LoosenOne(job.review, UnanchorEach(job, now, init), earlier, last);
      assert gone == earlier + {last};
    }
  }

  lemma {:induction false} Listed(gone: set<nat>) returns (rows: seq<nat>)
    ensures forall r :: r in rows <==> r in gone
  {
    if gone == {} {
      rows := [];
    } else {
      var r :| r in gone;
      var rest := Listed(gone - {r});
      rows := rest + [r];
    }
  }

  /** The ledger rolls a job back exactly when the protocol's state test passes and no day it
      wrote has been written since. A job rolled back is left alone. */
  lemma RollbackAgrees(db: Ledger.Db, id: nat, job: Job, actor: nat)
    requires LedgerInvariant.Inv(db) && Ledger.RowsRenderable(db) && id in db.jobs && db.jobs[id] == job.review
    ensures job.review.state == RolledBack ==> Ledger.Rollback(db, id, actor) == Ok(db)
    ensures job.review.state != RolledBack ==>
              (Ledger.Rollback(db, id, actor).Ok? <==>
               RollBackJob(job).Some? && LedgerOutcomes.UntouchedSince(db, id))
  {
    hide Ledger.RollbackAll, LedgerOutcomes.UntouchedSince, LedgerInvariant.Inv;
    if job.review.state == Completed {
      LedgerOutcomes.RollbackEffect(db, id, actor);
    }
  }

  /** To the protocol a ledger rollback is its own step on the job rolled back, and on every
      job, that one included, one loss of anchors for each row it deleted. */
  lemma RollbackIsUnanchoring(db: Ledger.Db, id: nat, k: nat, job: Job, now: nat, actor: nat) returns (rows: seq<nat>)
    requires LedgerInvariant.Inv(db) && Ledger.RowsRenderable(db) && id in db.jobs && db.jobs[id].state == Completed
    requires k in db.jobs && db.jobs[k] == job.review && Ledger.Rollback(db, id, actor).Ok?
    ensures var next := Ledger.Rollback(db, id, actor).value;
            var left := UnanchorEach(job, now, rows);
            (forall r :: r in rows <==> r in LedgerJobs.RowsGone(db, next))
            && k in next.jobs
            && if k == id then RollBackJob(left).Some? && next.jobs[k] == RollBackJob(left).value.review
               else next.jobs[k] == left.review
  {
    hide Ledger.Rollback, LedgerInvariant.Inv, LedgerJobs.RowsGone;
    LedgerJobs.RollbackLoosens(db, id, actor);
    var next := Ledger.Rollback(db, id, actor).value;
    rows := Listed(LedgerJobs.RowsGone(db, next));
    UnanchorEachLoosens(job, now, rows, LedgerJobs.RowsGone(db, next));
    var reopened := next.jobs[id := next.jobs[id].(state := Completed)];
    assert k in reopened.Keys && LedgerJobs.JobFollows(job.review, reopened[k], LedgerJobs.RowsGone(db, next));
    FollowsOnce(job.review, reopened[k], UnanchorEach(job, now, rows).review, LedgerJobs.RowsGone(db, next));
  }

  lemma FollowsOnce(was: ReviewJob, a: ReviewJob, b: ReviewJob, gone: set<nat>)
    requires LedgerJobs.JobFollows(was, a, gone) && LedgerJobs.JobFollows(was, b, gone)
    ensures a == b
  {
    assert a.items == b.items;
  }
}
