/** What the four transactions do to the import jobs: items lose exactly the anchors whose
    row is deleted, and nothing else about them changes. */
module LedgerJobs {
  import opened Common
  import opened DateOrder
  import opened ScheduleDomain
  import opened Snapshots
  import opened Review
  import opened Ledger
  import opened LedgerInvariant
  import opened LedgerOutcomes

  // ----- rows that go, anchors that follow

  /** The rows a list of writes takes away when it is undone: those the import had made. */
  function DroppedIds(db: Db, user: nat, writes: seq<Revision>): set<nat> {
    set i | 0 <= i < |writes| && writes[i].before.None? && Key(user, writes[i].date) in db.days ::
      db.days[Key(user, writes[i].date)].id
  }

  function Loosened(item: Item, gone: set<nat>): Item {
    if item.anchorId.Some? && item.anchorId.value in gone then item.(anchorId := None) else item
  }

  /** Every job keeps everything but the anchors on rows that are gone. */
  ghost predicate JobsFollow(db: Db, next: Db, gone: set<nat>) {
    next.jobs.Keys == db.jobs.Keys
    && forall j :: j in db.jobs ==> JobFollows(db.jobs[j], next.jobs[j], gone)
  }

  ghost predicate JobFollows(was: ReviewJob, now: ReviewJob, gone: set<nat>) {
    now == was.(items := now.items) && |now.items| == |was.items|
    && forall n :: 0 <= n < |was.items| ==> now.items[n] == Loosened(was.items[n], gone)
  }

  lemma RollbackItemLoosens(db: Db, user: nat, jobId: nat, w: Revision, actor: nat)
    requires RowsRenderable(db) && RollbackItem(db, user, jobId, w, actor).Ok?
    ensures JobsFollow(db, RollbackItem(db, user, jobId, w, actor).value, DroppedIds(db, user, [w]))
  {
    hide DayFromStored, StoredFromDay, ReadBack, KeepReferences;
    var next := RollbackItem(db, user, jobId, w, actor).value;
    var key := Key(user, w.date);
    if w.before.None? {
      assert [w][0] == w;
      assert DroppedIds(db, user, [w]) == {db.days[key].id};
    } else {
      assert DroppedIds(db, user, [w]) == {};
    }
  }

  lemma DroppedIdsSplit(db: Db, mid: Db, user: nat, writes: seq<Revision>)
    requires |writes| > 0 && OnePerDate(writes, RevisionDate) && SameElsewhere(db, mid, user, {writes[0].date})
    ensures DroppedIds(db, user, writes) == DroppedIds(db, user, writes[..1]) + DroppedIds(mid, user, writes[1..])
  {
    var rest := writes[1..];
    forall i | 0 <= i < |rest|
      ensures rest[i] == writes[i + 1] && SameAt(db, mid, Key(user, rest[i].date))
    {
      assert RevisionDate(writes[0]) != RevisionDate(writes[i + 1]);
    }
    forall id | id in DroppedIds(db, user, writes)
      ensures id in DroppedIds(db, user, writes[..1]) + DroppedIds(mid, user, rest)
    {
      var i :| 0 <= i < |writes| && writes[i].before.None? && Key(user, writes[i].date) in db.days
               && db.days[Key(user, writes[i].date)].id == id;
      assert if i == 0 then writes[..1][0] == writes[0] else rest[i - 1] == writes[i];
    }
    forall id | id in DroppedIds(mid, user, rest) ensures id in DroppedIds(db, user, writes) {
      var i :| 0 <= i < |rest| && rest[i].before.None? && Key(user, rest[i].date) in mid.days
               && mid.days[Key(user, rest[i].date)].id == id;
      assert rest[i] == writes[i + 1];
    }
    assert writes[..1][0] == writes[0];
  }

  lemma FollowsTransitive(a: Db, b: Db, c: Db, gone: set<nat>, more: set<nat>)
    requires JobsFollow(a, b, gone) && JobsFollow(b, c, more)
    ensures JobsFollow(a, c, gone + more)
  {
    forall j | j in a.jobs ensures JobFollows(a.jobs[j], c.jobs[j], gone + more) {
      assert j in a.jobs.Keys;
      assert JobFollows(a.jobs[j], b.jobs[j], gone) && JobFollows(b.jobs[j], c.jobs[j], more);
    }
  }

  lemma {:induction false} RollbackAllLoosens(db: Db, user: nat, jobId: nat, writes: seq<Revision>, actor: nat)
    requires RowsRenderable(db) && OnePerDate(writes, RevisionDate)
    requires RollbackAll(db, user, jobId, writes, actor).Ok?
    ensures JobsFollow(db, RollbackAll(db, user, jobId, writes, actor).value, DroppedIds(db, user, writes))
    decreases |writes|
  {
    hide RollbackItem, SameElsewhere, DroppedIds, JobFollows, Undone;
    if writes == [] {
      NothingFollows(db, user);
    } else {
      var mid := RollbackItem(db, user, jobId, writes[0], actor).value;
      var rest := writes[1..];
      RollbackItemKeepsRenderable(db, user, jobId, writes[0], actor);
      RollbackItemOutcome(db, user, jobId, writes[0], actor);
      RollbackItemLoosens(db, user, jobId, writes[0], actor);
      assert writes[..1] == [writes[0]];
      assert forall i, j :: 0 <= i < j < |rest| ==> rest[i] == writes[i + 1] && rest[j] == writes[j + 1];
      RollbackAllLoosens(mid, user, jobId, rest, actor);
      DroppedIdsSplit(db, mid, user, writes);
      FollowsTransitive(db, mid, RollbackAll(mid, user, jobId, rest, actor).value,
                        DroppedIds(db, user, writes[..1]), DroppedIds(mid, user, rest));
    }
  }

  lemma NothingFollows(db: Db, user: nat)
    ensures JobsFollow(db, db, DroppedIds(db, user, []))
  {
  }

  /** The rows that were there and are not any more. */
  ghost function RowsGone(db: Db, next: Db): set<nat> {
    set k | k in db.days && k !in next.days :: db.days[k].id
  }

  /** A rollback moves its own job to ROLLED_BACK; otherwise every job, its own included, only
      loses the anchors on the rows the rollback deleted. */
  lemma RollbackLoosens(db: Db, jobId: nat, actor: nat)
    requires Inv(db) && RowsRenderable(db) && jobId in db.jobs && db.jobs[jobId].state == Completed
    requires Rollback(db, jobId, actor).Ok?
    ensures var next := Rollback(db, jobId, actor).value;
            jobId in next.jobs && next.jobs[jobId].state == RolledBack
            && JobsFollow(db, next.(jobs := next.jobs[jobId := next.jobs[jobId].(state := Completed)]),
                RowsGone(db, next))
  {
    hide Inv, RollbackAll, JobFollows, DroppedIds, RowsGone, ByDate, WritesOf, AllAttached;
    var user := db.jobs[jobId].target;
    var writes := ByDate(WritesOf(db.revisions, jobId), RevisionDate);
    RollbackList(db, jobId);
    RollbackAllLoosens(db, user, jobId, writes, actor);
    RollbackAllOutcome(db, user, jobId, writes, actor);
    var undone := RollbackAll(db, user, jobId, writes, actor).value;
    assert jobId in db.jobs.Keys;
    DroppedAreGone(db, undone, user, writes);
    StateKept(db, undone, jobId, DroppedIds(db, user, writes));
    var next := Rollback(db, jobId, actor).value;
    assert next == undone.(jobs := undone.jobs[jobId := undone.jobs[jobId].(state := RolledBack)]);
    assert next.jobs[jobId := next.jobs[jobId].(state := Completed)] == undone.jobs;
    GoneByDays(db, undone, next);
  }

  lemma GoneByDays(db: Db, a: Db, b: Db)
    requires a.days == b.days
    ensures RowsGone(db, a) == RowsGone(db, b)
  {
  }

  lemma StateKept(db: Db, next: Db, j: nat, gone: set<nat>)
    requires j in db.jobs && JobsFollow(db, next, gone)
    ensures j in next.jobs && next.jobs[j].state == db.jobs[j].state
  {
    assert j in next.jobs.Keys;
    assert JobFollows(db.jobs[j], next.jobs[j], gone);
  }

  lemma DroppedAreGone(db: Db, next: Db, user: nat, writes: seq<Revision>)
    requires RollbackOutcome(db, next, user, writes) && Inv(db)
    requires forall i :: 0 <= i < |writes| ==> Key(user, writes[i].date) in db.days
    ensures DroppedIds(db, user, writes) == RowsGone(db, next)
  {
    hide ReadBack, KeepReferences, DayFromStored, Inv;
    forall id | id in DroppedIds(db, user, writes) ensures id in RowsGone(db, next) {
      var i :| 0 <= i < |writes| && writes[i].before.None? && Key(user, writes[i].date) in db.days
               && db.days[Key(user, writes[i].date)].id == id;
      assert Undone(db, next, Key(user, writes[i].date), writes[i]);
    }
    forall id | id in RowsGone(db, next) ensures id in DroppedIds(db, user, writes) {
      var k :| k in db.days && k !in next.days && db.days[k].id == id;
      assert !SameAt(db, next, k);
      var i :| 0 <= i < |writes| && writes[i].date == k.date && k.user == user;
      assert Undone(db, next, Key(user, writes[i].date), writes[i]);
    }
  }

  // ----- commits and manual writers leave the jobs alone

  lemma {:induction false} CommitItemsKeepJobs(db: Db, job: ReviewJob, jobId: nat, items: seq<Item>, actor: nat)
    requires RowsRenderable(db) && CommitItems(db, job, jobId, items, actor).Ok?
    ensures CommitItems(db, job, jobId, items, actor).value.jobs == db.jobs
    decreases |items|
  {
    hide DayError, AnchorHolds, Selected, Written, RowAfterWrite, PutRecord, ImportedDay;
    if items != [] {
      var next := CommitItem(db, job, jobId, items[0], actor).value;
      CommitItemKeepsRenderable(db, job, jobId, items[0], actor);
      CommitItemsKeepJobs(next, job, jobId, items[1..], actor);
    }
  }

  lemma {:induction false} PutAllKeepsJobs(db: Db, user: nat, dates: seq<string>, day: Day, actor: nat)
    requires RowsRenderable(db) && StartsHaveEnds(day.content.segments)
    ensures PutAll(db, user, dates, day, actor).jobs == db.jobs
    decreases |dates|
  {
    hide RowAfterWrite, PutRecord;
    if dates != [] {
      var key := Key(user, dates[0]);
      var change := if key in db.days then BatchUpdate else BatchCreate;
      PutKeepsRenderable(db, key, day, change, None, actor);
      PutAllKeepsJobs(Put(db, key, day, change, None, actor), user, dates[1..], day, actor);
    }
  }

  lemma SaveLeavesJobs(db: Db, key: Key, status: Status, note: string,
      segments: seq<Segment>, version: nat, actor: nat)
    requires RowsRenderable(db) && Save(db, key, status, note, segments, version, actor).Ok?
    ensures Save(db, key, status, note, segments, version, actor).value.jobs == db.jobs
  {
    hide DayError, RowAfterWrite, PutRecord;
  }

  lemma BatchLeavesJobs(db: Db, user: nat, dates: seq<string>, status: Status, note: string,
      segments: seq<Segment>, actor: nat)
    requires RowsRenderable(db) && Batch(db, user, dates, status, note, segments, actor).Ok?
    ensures Batch(db, user, dates, status, note, segments, actor).value.jobs == db.jobs
  {
    hide BatchError, PutAll;
    FineDatesRenderable(dates, status, segments);
    var day := Day(Content(status, Manual, None, note, segments), actor);
    PutAllKeepsJobs(db, user, dates, day, actor);
  }

  lemma RollbackNamesJob(db: Db, jobId: nat, actor: nat)
    requires RowsRenderable(db) && Rollback(db, jobId, actor).Ok?
    ensures jobId in db.jobs
  {
    hide RollbackAll;
  }

  lemma CommitKeepsKeys(db: Db, jobId: nat, expected: nat, actor: nat)
    requires Inv(db) && RowsRenderable(db) && Commit(db, jobId, expected, actor).Ok?
    ensures Commit(db, jobId, expected, actor).value.jobs.Keys == db.jobs.Keys
  {
    hide Inv, CommitItems;
    var job := db.jobs[jobId];
    if job.state == NeedsReview {
      CommitItemsKeepJobs(db, job, jobId, ByDate(job.items, ItemDate), actor);
    }
  }

  lemma RollbackKeepsKeys(db: Db, jobId: nat, actor: nat)
    requires Inv(db) && RowsRenderable(db) && Rollback(db, jobId, actor).Ok?
    ensures Rollback(db, jobId, actor).value.jobs.Keys == db.jobs.Keys
  {
    hide Inv, RollbackAll, JobFollows, RowsGone;
    if db.jobs[jobId].state == Completed {
      RollbackLoosens(db, jobId, actor);
    }
  }
}
