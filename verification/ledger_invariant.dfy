/** What every ledger transaction keeps: identities, versions, and the link between a
    completed import and the rows it wrote. */
module LedgerInvariant {
  import opened Common
  import opened Calendar
  import opened DateOrder
  import opened ScheduleDomain
  import opened Text
  import opened Snapshots
  import opened Review
  import opened Ledger

  ghost predicate RowsOk(db: Db) {
    forall k :: k in db.days ==>
      db.days[k].id < db.nextRow && db.days[k].version >= 1 && Canonical(db.days[k].content)
  }

  ghost predicate RowIdsUnique(db: Db) {
    forall a, b :: a in db.days && b in db.days && db.days[a].id == db.days[b].id ==> a == b
  }

  ghost predicate OneItemPerDateEverywhere(db: Db) {
    forall j :: j in db.jobs ==> OneItemPerDate(db.jobs[j].items)
  }

  function WriteKey(r: Revision): Key {
    Key(r.user, r.date)
  }

  /** The row an import wrote is still the row of that day, its version has not gone back,
      and while the version stands still so does everything the after-snapshot recorded. */
  ghost predicate Owned(db: Db, r: Revision)
    requires r.afterVersion.Some? && r.after.Some?
  {
    WriteKey(r) in db.days && r.dayId == Some(db.days[WriteKey(r)].id)
    && r.afterVersion.value <= db.days[WriteKey(r)].version
    && (r.afterVersion.value == db.days[WriteKey(r)].version ==>
          db.days[WriteKey(r)].content == DayFromStored(r.after.value).content
          && db.days[WriteKey(r)].content.sourceImportId == r.job)
  }

  /** `states` gives the state each job is about to have while a transaction is open. */
  ghost predicate WriteOk(db: Db, states: map<nat, JobState>, r: Revision) {
    r.job.Some? && r.job.value in db.jobs && r.job.value in states && states[r.job.value] in {Completed, RolledBack}
    && r.user == db.jobs[r.job.value].target
    && r.afterVersion.Some? && r.afterVersion.value >= 1 && r.after.Some?
    && (r.dayId.Some? ==> r.dayId.value < db.nextRow)
    && (r.before.None? <==> r.afterVersion.value == 1)
    && (states[r.job.value] == Completed ==> Owned(db, r))
  }

  ghost predicate WritesOk(db: Db, states: map<nat, JobState>) {
    forall i :: 0 <= i < |db.revisions| && IsImportWrite(db.revisions[i]) ==> WriteOk(db, states, db.revisions[i])
  }

  ghost predicate NotAhead(r: Revision, row: Row) {
    r.dayId == Some(row.id) && r.afterVersion.Some? ==> r.afterVersion.value <= row.version
  }

  /** No recorded version of a living row lies ahead of the row. */
  ghost predicate NoneAhead(db: Db) {
    forall i, k :: 0 <= i < |db.revisions| && IsImportWrite(db.revisions[i]) && k in db.days ==>
      NotAhead(db.revisions[i], db.days[k])
  }

  /** Two import writes are of different jobs or dates, and never of one row version. */
  ghost predicate Apart(a: Revision, b: Revision) {
    (a.job == b.job ==> a.date != b.date)
    && (a.dayId.Some? && a.dayId == b.dayId ==> a.afterVersion != b.afterVersion)
  }

  ghost predicate WritesDistinct(db: Db) {
    forall i, j :: 0 <= i < j < |db.revisions| && IsImportWrite(db.revisions[i]) && IsImportWrite(db.revisions[j]) ==>
      Apart(db.revisions[i], db.revisions[j])
  }

  ghost predicate Core(db: Db, states: map<nat, JobState>) {
    RowsOk(db) && RowIdsUnique(db) && OneItemPerDateEverywhere(db)
    && WritesOk(db, states) && NoneAhead(db) && WritesDistinct(db)
  }

  ghost function States(db: Db): map<nat, JobState> {
    map j | j in db.jobs :: db.jobs[j].state
  }

  ghost predicate Inv(db: Db) {
    Core(db, States(db))
  }

  lemma RenderableRows(db: Db)
    requires RowsOk(db)
    ensures RowsRenderable(db)
  {
    forall k | k in db.days ensures StartsHaveEnds(db.days[k].content.segments) {
      ReadBackFixesCanonical(db.days[k].content);
    }
  }

  // ----- one row written, one revision appended

  ghost function AppendWrite(db: Db, key: Key, day: Day, r: Revision): Db {
    WriteDay(db, key, day).(revisions := db.revisions + [r])
  }

  /** What an appended revision must satisfy when it records an import write. */
  ghost predicate FreshWrite(db: Db, states: map<nat, JobState>, key: Key, day: Day, r: Revision) {
    var row := RowAfterWrite(db, key, day);
    r.job.Some? && r.job.value in db.jobs && r.job.value in states && states[r.job.value] == Completed
    && WriteKey(r) == key && key.user == db.jobs[r.job.value].target
    && r.dayId == Some(row.id) && r.afterVersion == Some(row.version)
    && r.after.Some? && row.content == DayFromStored(r.after.value).content && row.content.sourceImportId == r.job
    && (r.before.None? <==> key !in db.days)
    && forall i :: 0 <= i < |db.revisions| && IsImportWrite(db.revisions[i]) ==>
         db.revisions[i].job == r.job ==> db.revisions[i].date != r.date
  }

  lemma AppendWriteRows(db: Db, key: Key, day: Day, r: Revision)
    requires RowsOk(db) && RowIdsUnique(db) && StartsHaveEnds(day.content.segments)
    ensures RowsOk(AppendWrite(db, key, day, r)) && RowIdsUnique(AppendWrite(db, key, day, r))
  {
    KeepShiftsKeepsEnds(day.content.segments, db.shifts);
    ReadBackIsCanonical(KeepReferences(db, day.content));
  }

  lemma AppendWriteOwned(db: Db, states: map<nat, JobState>, key: Key, day: Day, r: Revision, w: Revision)
    requires RowsOk(db) && WriteOk(db, states, w)
    ensures WriteOk(AppendWrite(db, key, day, r), states, w)
  {
  }

  lemma AppendWriteNotAhead(db: Db, states: map<nat, JobState>, key: Key, day: Day, w: Revision, k: Key)
    requires RowsOk(db) && WriteOk(db, states, w)
    requires forall k :: k in db.days ==> NotAhead(w, db.days[k])
    requires k in WriteDay(db, key, day).days
    ensures NotAhead(w, WriteDay(db, key, day).days[k])
  {
  }

  /** The new write takes a version of its row that no earlier write took. */
  lemma AppendWriteApart(db: Db, states: map<nat, JobState>, key: Key, day: Day, r: Revision, w: Revision)
    requires RowsOk(db) && WriteOk(db, states, w) && FreshWrite(db, states, key, day, r)
    requires w in db.revisions && IsImportWrite(w)
    requires forall k :: k in db.days ==> NotAhead(w, db.days[k])
    ensures Apart(w, r)
  {
    hide ReadBack, KeepReferences, DayFromStored;
  }

  lemma AppendWriteDistinct(db: Db, states: map<nat, JobState>, key: Key, day: Day, r: Revision)
    requires Core(db, states) && (IsImportWrite(r) ==> FreshWrite(db, states, key, day, r))
    ensures WritesDistinct(AppendWrite(db, key, day, r))
  {
    hide FreshWrite;
    var next := AppendWrite(db, key, day, r);
    forall i, j | 0 <= i < j < |next.revisions| && IsImportWrite(next.revisions[i]) && IsImportWrite(next.revisions[j])
      ensures Apart(next.revisions[i], next.revisions[j])
    {
      assert next.revisions[i] == db.revisions[i] && WriteOk(db, states, db.revisions[i]);
      if j < |db.revisions| {
        assert next.revisions[j] == db.revisions[j];
      } else {
        AppendWriteApart(db, states, key, day, r, db.revisions[i]);
      }
    }
  }

  /** Writing a day keeps the invariant; an import write must be the job's first on its
      date and carry the row it made. */
  lemma AppendWriteKeepsCore(db: Db, states: map<nat, JobState>, key: Key, day: Day, r: Revision)
    requires Core(db, states) && StartsHaveEnds(day.content.segments)
    requires IsImportWrite(r) ==> FreshWrite(db, states, key, day, r)
    ensures Core(AppendWrite(db, key, day, r), states)
  {
    hide ReadBack, KeepReferences, DayFromStored, Canonical, OneItemPerDate;
    var next := AppendWrite(db, key, day, r);
    var n := |db.revisions|;
    AppendWriteRows(db, key, day, r);
    AppendWriteDistinct(db, states, key, day, r);
    forall i | 0 <= i < |next.revisions| && IsImportWrite(next.revisions[i])
      ensures WriteOk(next, states, next.revisions[i])
      ensures forall k :: k in next.days ==> NotAhead(next.revisions[i], next.days[k])
    {
      if i < n {
        assert next.revisions[i] == db.revisions[i] && WriteOk(db, states, db.revisions[i]);
        AppendWriteOwned(db, states, key, day, r, db.revisions[i]);
        forall k | k in next.days ensures NotAhead(next.revisions[i], next.days[k]) {
          AppendWriteNotAhead(db, states, key, day, db.revisions[i], k);
        }
      }
    }
  }

  // ----- one row dropped

  /** The revision is an import write of this ledger and names the present row of its day. */
  ghost predicate Attached(db: Db, r: Revision) {
    r in db.revisions && IsImportWrite(r) && WriteKey(r) in db.days && r.dayId == Some(db.days[WriteKey(r)].id)
  }

  ghost function AppendDrop(db: Db, key: Key, r: Revision): Db
    requires key in db.days
  {
    DropDay(db, key).(revisions := DropDay(db, key).revisions + [r])
  }

  /** A row that is still at the version its creating import gave it is owned by no other
      completed import. */
  lemma CreatedRowHasOneOwner(db: Db, states: map<nat, JobState>, created: Revision, w: Revision)
    requires Core(db, states) && Attached(db, created) && created.afterVersion == Some(1)
    requires db.days[WriteKey(created)].version == 1
    requires w in db.revisions && IsImportWrite(w) && w != created
    ensures w.dayId != created.dayId
  {
    var i :| 0 <= i < |db.revisions| && db.revisions[i] == created;
    var j :| 0 <= j < |db.revisions| && db.revisions[j] == w;
    assert WriteOk(db, states, w) && NotAhead(w, db.days[WriteKey(created)]);
    assert if i < j then Apart(created, w) else Apart(w, created);
  }

  lemma DropKeepsOneItemPerDate(db: Db, key: Key)
    requires key in db.days && OneItemPerDateEverywhere(db)
    ensures OneItemPerDateEverywhere(DropDay(db, key))
  {
    forall j | j in db.jobs ensures OneItemPerDate(DropDay(db, key).jobs[j].items) {
      assert OneItemPerDate(db.jobs[j].items);
    }
  }

  lemma DropKeepsWrite(db: Db, states: map<nat, JobState>, created: Revision, r: Revision, w: Revision)
    requires Core(db, states) && Attached(db, created) && created.afterVersion == Some(1)
    requires db.days[WriteKey(created)].version == 1 && states[created.job.value] == RolledBack
    requires created.job.Some? && created.job.value in states
    requires w in db.revisions && IsImportWrite(w)
    ensures var id := db.days[WriteKey(created)].id;
            WriteOk(AppendDrop(db, WriteKey(created), r), states,
                    if w.dayId == Some(id) then w.(dayId := None) else w)
  {
    var i :| 0 <= i < |db.revisions| && db.revisions[i] == w;
    assert WriteOk(db, states, w);
    if w != created {
      CreatedRowHasOneOwner(db, states, created, w);
    }
  }

  /** Undoing a creation keeps the invariant. */
  lemma AppendDropKeepsCore(db: Db, states: map<nat, JobState>, created: Revision, r: Revision)
    requires Core(db, states) && Attached(db, created) && created.afterVersion == Some(1)
    requires created.job.Some? && created.job.value in states && states[created.job.value] == RolledBack
    requires db.days[WriteKey(created)].version == 1 && !IsImportWrite(r)
    ensures Core(AppendDrop(db, WriteKey(created), r), states)
  {
    var key := WriteKey(created);
    var id := db.days[key].id;
    var next := AppendDrop(db, key, r);
    var n := |db.revisions|;
    DropKeepsOneItemPerDate(db, key);
    forall i | 0 <= i < |next.revisions| && IsImportWrite(next.revisions[i])
      ensures WriteOk(next, states, next.revisions[i])
    {
      assert IsImportWrite(db.revisions[i]) && db.revisions[i] in db.revisions;
      DropKeepsWrite(db, states, created, r, db.revisions[i]);
    }
    forall i, k | 0 <= i < |next.revisions| && IsImportWrite(next.revisions[i]) && k in next.days
      ensures NotAhead(next.revisions[i], next.days[k])
    {
      assert NotAhead(db.revisions[i], db.days[k]);
    }
    forall i, j | 0 <= i < j < |next.revisions| && IsImportWrite(next.revisions[i]) && IsImportWrite(next.revisions[j])
      ensures Apart(next.revisions[i], next.revisions[j])
    {
      assert Apart(db.revisions[i], db.revisions[j]);
    }
  }

  // ----- the transactions keep the invariant

  /** The snapshot taken after a write restores to the row just written. */
  lemma AfterSnapshotIsRow(db: Db, key: Key, day: Day, change: Change, job: Option<nat>, actor: nat)
    requires RowsOk(db) && StartsHaveEnds(day.content.segments) && RowsRenderable(db)
    ensures var next := Put(db, key, day, change, job, actor);
            var r := next.revisions[|db.revisions|];
            next == AppendWrite(db, key, day, r) && r.after.Some?
            && DayFromStored(r.after.value) == Day(next.days[key].content, day.createdBy)
  {
    KeepShiftsKeepsEnds(day.content.segments, db.shifts);
    SnapshotRoundTrip(day.(content := KeepReferences(db, day.content)));
  }

  lemma PutKeepsCore(db: Db, states: map<nat, JobState>, key: Key, day: Day, change: Change, job: Option<nat>,
      actor: nat)
    requires Core(db, states) && StartsHaveEnds(day.content.segments) && RowsRenderable(db)
    requires change in {ImportCreate, ImportUpdate} ==>
      job.Some? && job.value in db.jobs && job.value in states && states[job.value] == Completed
      && key.user == db.jobs[job.value].target && day.content.sourceImportId == job
      && forall i :: 0 <= i < |db.revisions| && IsImportWrite(db.revisions[i]) ==>
           db.revisions[i].job == job ==> db.revisions[i].date != key.date
    ensures Core(Put(db, key, day, change, job, actor), states)
  {
    AfterSnapshotIsRow(db, key, day, change, job, actor);
    var r := Put(db, key, day, change, job, actor).revisions[|db.revisions|];
    AppendWriteKeepsCore(db, states, key, day, r);
  }

  lemma {:induction false} PutAllKeepsCore(db: Db, states: map<nat, JobState>, user: nat, dates: seq<string>,
      day: Day, actor: nat)
    requires Core(db, states) && StartsHaveEnds(day.content.segments) && RowsRenderable(db)
    ensures Core(PutAll(db, user, dates, day, actor), states)
    ensures PutAll(db, user, dates, day, actor).jobs == db.jobs
    decreases |dates|
  {
    if dates != [] {
      var key := Key(user, dates[0]);
      var change := if key in db.days then BatchUpdate else BatchCreate;
      PutKeepsCore(db, states, key, day, change, None, actor);
      PutKeepsRenderable(db, key, day, change, None, actor);
      PutAllKeepsCore(Put(db, key, day, change, None, actor), states, user, dates[1..], day, actor);
    }
  }

  ghost predicate NotYetWritten(db: Db, jobId: nat, items: seq<Item>) {
    forall k :: 0 <= k < |items| ==> Unwritten(db, jobId, items[k].date)
  }

  ghost predicate Unwritten(db: Db, jobId: nat, date: string) {
    forall i :: 0 <= i < |db.revisions| && IsImportWrite(db.revisions[i]) && db.revisions[i].job == Some(jobId) ==>
      db.revisions[i].date != date
  }

  lemma CommitItemKeepsCore(db: Db, states: map<nat, JobState>, job: ReviewJob, jobId: nat, item: Item, actor: nat)
    requires Core(db, states) && RowsRenderable(db)
    requires jobId in db.jobs && db.jobs[jobId] == job && jobId in states && states[jobId] == Completed
    requires Unwritten(db, jobId, item.date)
    requires CommitItem(db, job, jobId, item, actor).Ok?
    ensures var next := CommitItem(db, job, jobId, item, actor).value;
            Core(next, states) && next.jobs == db.jobs
            && forall date :: date != item.date && Unwritten(db, jobId, date) ==> Unwritten(next, jobId, date)
  {
    hide DayError, Core, PlaceByDate, DayFromStored, ReadBack, StoredFromDay, KeepReferences;
    if Written(item) {
      var key := Key(job.target, item.date);
      var day := ImportedDay(job, jobId, item, actor);
      var change := if key in db.days then ImportUpdate else ImportCreate;
      PutKeepsCore(db, states, key, day, change, Some(jobId), actor);
    }
  }

  lemma {:induction false} CommitItemsKeepCore(db: Db, states: map<nat, JobState>, job: ReviewJob, jobId: nat,
      items: seq<Item>, actor: nat)
    requires Core(db, states) && RowsRenderable(db)
    requires jobId in db.jobs && db.jobs[jobId] == job && jobId in states && states[jobId] == Completed
    requires OneItemPerDate(items) && NotYetWritten(db, jobId, items)
    requires CommitItems(db, job, jobId, items, actor).Ok?
    ensures var next := CommitItems(db, job, jobId, items, actor).value;
            Core(next, states) && next.jobs == db.jobs
    decreases |items|
  {
    hide CommitItem, Core;
    if items != [] {
      var next := CommitItem(db, job, jobId, items[0], actor).value;
      CommitItemKeepsCore(db, states, job, jobId, items[0], actor);
      CommitItemKeepsRenderable(db, job, jobId, items[0], actor);
      CommitItemsKeepCore(next, states, job, jobId, items[1..], actor);
    }
  }

  /** Declaring a job without writes completed breaks nothing. */
  lemma CompletingEmptyJob(db: Db, jobId: nat)
    requires Inv(db) && jobId in db.jobs && db.jobs[jobId].state !in {Completed, RolledBack}
    ensures Core(db, States(db)[jobId := Completed])
    ensures forall i :: 0 <= i < |db.revisions| && IsImportWrite(db.revisions[i]) ==> db.revisions[i].job != Some(jobId)
  {
    forall i | 0 <= i < |db.revisions| && IsImportWrite(db.revisions[i])
      ensures db.revisions[i].job != Some(jobId) && WriteOk(db, States(db)[jobId := Completed], db.revisions[i])
    {
      assert WriteOk(db, States(db), db.revisions[i]);
    }
  }

  lemma SameStatesSameCore(db: Db, states: map<nat, JobState>, jobId: nat, state: JobState)
    requires Core(db, states) && jobId in db.jobs && states == States(db)[jobId := state]
    ensures Inv(db.(jobs := db.jobs[jobId := db.jobs[jobId].(state := state)]))
  {
    var next := db.(jobs := db.jobs[jobId := db.jobs[jobId].(state := state)]);
    assert States(next) == states;
    forall i | 0 <= i < |next.revisions| && IsImportWrite(next.revisions[i])
      ensures WriteOk(next, states, next.revisions[i])
    {
      assert WriteOk(db, states, db.revisions[i]);
    }
  }

  lemma CommitKeepsInv(db: Db, jobId: nat, expected: nat, actor: nat)
    requires Inv(db) && RowsRenderable(db) && Commit(db, jobId, expected, actor).Ok?
    ensures Inv(Commit(db, jobId, expected, actor).value)
  {
    var job := db.jobs[jobId];
    if job.state != Completed {
      var states := States(db)[jobId := Completed];
      CompletingEmptyJob(db, jobId);
      ByDateKeepsDates(job.items, ItemDate);
      CommitItemsKeepCore(db, states, job, jobId, ByDate(job.items, ItemDate), actor);
      SameStatesSameCore(CommitItems(db, job, jobId, ByDate(job.items, ItemDate), actor).value, states,
                         jobId, Completed);
    }
  }

  // ----- rollback

  ghost predicate AllAttached(db: Db, user: nat, jobId: nat, writes: seq<Revision>) {
    forall i :: 0 <= i < |writes| ==>
      Attached(db, writes[i]) && writes[i].user == user && writes[i].job == Some(jobId)
  }

  ghost function RestoreRevision(db: Db, user: nat, jobId: nat, r: Revision, actor: nat): Revision
    requires StillOwned(db, Key(user, r.date), r, jobId) && r.before.Some?
  {
    var row := db.days[Key(user, r.date)];
    Revision(Some(row.id), user, r.date, Some(row.version), Some(row.version + 1), r.after,
             Some(RestoredSnapshot(db, DayFromStored(r.before.value))), RollbackRestore, Some(jobId), actor)
  }

  lemma RollbackItemKeepsCore(db: Db, states: map<nat, JobState>, user: nat, jobId: nat, r: Revision, actor: nat)
    requires Core(db, states) && RowsRenderable(db) && Attached(db, r) && r.user == user && r.job == Some(jobId)
    requires jobId in db.jobs && jobId in states && states[jobId] == RolledBack
    requires RollbackItem(db, user, jobId, r, actor).Ok?
    ensures Core(RollbackItem(db, user, jobId, r, actor).value, states)
  {
    assert WriteKey(r) in db.days;
    hide Core, RollbackItem, Attached;
    RecordedWriteIsOk(db, states, r);
    RollbackItemForm(db, user, jobId, r, actor);
    if r.before.None? {
      AppendDropKeepsCore(db, states, r, DropRevision(db, user, jobId, r, actor));
    } else {
      AppendWriteKeepsCore(db, states, WriteKey(r), DayFromStored(r.before.value),
                           RestoreRevision(db, user, jobId, r, actor));
    }
  }

  ghost function DropRevision(db: Db, user: nat, jobId: nat, r: Revision, actor: nat): Revision
    requires StillOwned(db, Key(user, r.date), r, jobId)
  {
    Revision(None, user, r.date, Some(db.days[Key(user, r.date)].version), None, r.after, None,
             RollbackDelete, Some(jobId), actor)
  }

  lemma RecordedWriteIsOk(db: Db, states: map<nat, JobState>, r: Revision)
    requires Core(db, states) && Attached(db, r)
    ensures WriteOk(db, states, r) && IsImportWrite(r)
  {
    var i :| 0 <= i < |db.revisions| && db.revisions[i] == r;
  }

  /** Taking one write back is either a drop or a write. */
  lemma RollbackItemForm(db: Db, user: nat, jobId: nat, r: Revision, actor: nat)
    requires RowsRenderable(db) && RollbackItem(db, user, jobId, r, actor).Ok?
    ensures var key := Key(user, r.date);
            StillOwned(db, key, r, jobId)
            && RollbackItem(db, user, jobId, r, actor).value ==
               if r.before.None? then AppendDrop(db, key, DropRevision(db, user, jobId, r, actor))
               else AppendWrite(db, key, DayFromStored(r.before.value), RestoreRevision(db, user, jobId, r, actor))
  {
    hide DayFromStored, StoredFromDay, ReadBack, KeepReferences, Unanchor, Detach;
  }

  /** Undoing one day leaves the job's other writes attached. */
  lemma RollbackItemKeepsAttached(db: Db, states: map<nat, JobState>, user: nat, jobId: nat, r: Revision, actor: nat,
      w: Revision)
    requires Core(db, states) && RowsRenderable(db) && Attached(db, r) && r.user == user
    requires Attached(db, w) && w.user == user && w.date != r.date
    requires RollbackItem(db, user, jobId, r, actor).Ok?
    ensures Attached(RollbackItem(db, user, jobId, r, actor).value, w)
    ensures RollbackItem(db, user, jobId, r, actor).value.days[WriteKey(w)] == db.days[WriteKey(w)]
  {
    var next := RollbackItem(db, user, jobId, r, actor).value;
    var i :| 0 <= i < |db.revisions| && db.revisions[i] == w;
    assert next.revisions[i] == w;
  }

  lemma RollbackItemKeepsJobs(db: Db, user: nat, jobId: nat, r: Revision, actor: nat)
    requires RowsRenderable(db) && RollbackItem(db, user, jobId, r, actor).Ok?
    ensures var next := RollbackItem(db, user, jobId, r, actor).value;
            next.jobs.Keys == db.jobs.Keys
            && forall j :: j in db.jobs ==>
                 next.jobs[j].state == db.jobs[j].state && next.jobs[j].target == db.jobs[j].target
  {
    hide DayFromStored, StoredFromDay, ReadBack, KeepReferences;
  }

  /** After one write is taken back the rest of the list can still be worked through. */
  lemma RestStaysAttached(db: Db, states: map<nat, JobState>, user: nat, jobId: nat, writes: seq<Revision>, actor: nat)
    requires Core(db, states) && RowsRenderable(db) && |writes| > 0
    requires AllAttached(db, user, jobId, writes) && OnePerDate(writes, RevisionDate)
    requires RollbackItem(db, user, jobId, writes[0], actor).Ok?
    ensures AllAttached(RollbackItem(db, user, jobId, writes[0], actor).value, user, jobId, writes[1..])
    ensures OnePerDate(writes[1..], RevisionDate)
  {
    hide RollbackItem, Core, Attached;
    var next := RollbackItem(db, user, jobId, writes[0], actor).value;
    forall i | 0 <= i < |writes[1..]|
      ensures Attached(next, writes[1..][i]) && writes[1..][i].user == user && writes[1..][i].job == Some(jobId)
    {
      assert RevisionDate(writes[0]) != RevisionDate(writes[i + 1]);
      RollbackItemKeepsAttached(db, states, user, jobId, writes[0], actor, writes[i + 1]);
    }
  }

  lemma {:induction false} RollbackAllKeepsCore(db: Db, states: map<nat, JobState>, user: nat, jobId: nat,
      writes: seq<Revision>, actor: nat)
    requires Core(db, states) && RowsRenderable(db) && AllAttached(db, user, jobId, writes)
             && OnePerDate(writes, RevisionDate)
    requires jobId in db.jobs && jobId in states && states[jobId] == RolledBack
    requires RollbackAll(db, user, jobId, writes, actor).Ok?
    ensures var next := RollbackAll(db, user, jobId, writes, actor).value;
            Core(next, states) && next.jobs.Keys == db.jobs.Keys
            && forall j :: j in db.jobs ==>
                 next.jobs[j].state == db.jobs[j].state && next.jobs[j].target == db.jobs[j].target
    decreases |writes|
  {
    if writes != [] {
      RestStaysAttached(db, states, user, jobId, writes, actor);
      assert Attached(db, writes[0]) && writes[0].user == user && writes[0].job == Some(jobId);
      hide RollbackItem, Core, Attached, AllAttached, OnePerDate;
      var next := RollbackItem(db, user, jobId, writes[0], actor).value;
      RollbackItemKeepsJobs(db, user, jobId, writes[0], actor);
      RollbackItemKeepsCore(db, states, user, jobId, writes[0], actor);
      RollbackItemKeepsRenderable(db, user, jobId, writes[0], actor);
      RollbackAllKeepsCore(next, states, user, jobId, writes[1..], actor);
    }
  }

  lemma {:induction false} WritesOfMembers(revisions: seq<Revision>, jobId: nat)
    ensures forall r :: r in WritesOf(revisions, jobId) <==> r in revisions && r.job == Some(jobId) && IsImportWrite(r)
  {
    if revisions != [] {
      var init, last := revisions[..|revisions| - 1], revisions[|revisions| - 1];
      WritesOfMembers(init, jobId);
      assert forall r :: r in revisions <==> r in init || r == last;
    }
  }

  ghost predicate WritesApart(revisions: seq<Revision>) {
    forall i, j :: 0 <= i < j < |revisions| && IsImportWrite(revisions[i]) && IsImportWrite(revisions[j]) ==>
      Apart(revisions[i], revisions[j])
  }

  lemma {:induction false} WritesOfDates(revisions: seq<Revision>, jobId: nat)
    requires WritesApart(revisions)
    ensures OnePerDate(WritesOf(revisions, jobId), RevisionDate)
  {
    if revisions != [] {
      var init, last := revisions[..|revisions| - 1], revisions[|revisions| - 1];
      WritesOfDates(init, jobId);
      WritesOfMembers(init, jobId);
      var earlier := WritesOf(init, jobId);
      if last.job == Some(jobId) && IsImportWrite(last) {
        forall i | 0 <= i < |earlier| ensures earlier[i].date != last.date {
          assert earlier[i] in earlier;
          var k :| 0 <= k < |init| && init[k] == earlier[i];
          assert Apart(revisions[k], revisions[|revisions| - 1]);
        }
      }
    }
  }

  /** The list a rollback works through: all the job's writes, still attached, one a date. */
  lemma RollbackList(db: Db, jobId: nat)
    requires Inv(db) && jobId in db.jobs && db.jobs[jobId].state == Completed
    ensures var writes := ByDate(WritesOf(db.revisions, jobId), RevisionDate);
            AllAttached(db, db.jobs[jobId].target, jobId, writes) && OnePerDate(writes, RevisionDate)
            && forall r :: r in writes <==> r in db.revisions && r.job == Some(jobId) && IsImportWrite(r)
  {
    WritesOfMembers(db.revisions, jobId);
    WritesOfDates(db.revisions, jobId);
    ByDateKeepsDates(WritesOf(db.revisions, jobId), RevisionDate);
    var writes := ByDate(WritesOf(db.revisions, jobId), RevisionDate);
    forall i | 0 <= i < |writes|
      ensures Attached(db, writes[i]) && writes[i].user == db.jobs[jobId].target && writes[i].job == Some(jobId)
    {
      assert writes[i] in writes;
      var k :| 0 <= k < |db.revisions| && db.revisions[k] == writes[i];
      assert WriteOk(db, States(db), db.revisions[k]);
    }
  }

  lemma ClosingKeepsCore(db: Db, jobId: nat)
    requires Inv(db) && jobId in db.jobs && db.jobs[jobId].state == Completed
    ensures Core(db, States(db)[jobId := RolledBack])
  {
    forall i | 0 <= i < |db.revisions| && IsImportWrite(db.revisions[i])
      ensures WriteOk(db, States(db)[jobId := RolledBack], db.revisions[i])
    {
      assert WriteOk(db, States(db), db.revisions[i]);
    }
  }

  lemma RollbackKeepsInv(db: Db, jobId: nat, actor: nat)
    requires Inv(db) && RowsRenderable(db) && Rollback(db, jobId, actor).Ok?
    ensures Inv(Rollback(db, jobId, actor).value)
  {
    hide RollbackAll, Core, Attached, WritesOf, ByDate;
    var job := db.jobs[jobId];
    if job.state != RolledBack {
      var states := States(db)[jobId := RolledBack];
      var writes := ByDate(WritesOf(db.revisions, jobId), RevisionDate);
      RollbackList(db, jobId);
      ClosingKeepsCore(db, jobId);
      RollbackAllKeepsCore(db, states, job.target, jobId, writes, actor);
      var next := RollbackAll(db, job.target, jobId, writes, actor).value;
      assert States(next)[jobId := RolledBack] == states;
      SameStatesSameCore(next, states, jobId, RolledBack);
    }
  }

  // ----- manual writers

  lemma SaveKeepsInv(db: Db, key: Key, status: Status, note: string, segments: seq<Segment>, version: nat, actor: nat)
    requires Inv(db) && RowsRenderable(db) && Save(db, key, status, note, segments, version, actor).Ok?
    ensures Inv(Save(db, key, status, note, segments, version, actor).value)
  {
    hide Core, DayError, TrimSpace, StoredFromDay, KeepReferences, ReadBack;
    ValidDayRenderable(key.date, status, segments);
    var day := Day(Content(status, Manual, None, TrimSpace(note), segments), actor);
    var change := if key in db.days then ManualUpdate else ManualCreate;
    PutKeepsCore(db, States(db), key, day, change, None, actor);
    assert States(Put(db, key, day, change, None, actor)) == States(db);
  }

  lemma BatchKeepsInv(db: Db, user: nat, dates: seq<string>, status: Status, note: string, segments: seq<Segment>,
      actor: nat)
    requires Inv(db) && RowsRenderable(db) && Batch(db, user, dates, status, note, segments, actor).Ok?
    ensures Inv(Batch(db, user, dates, status, note, segments, actor).value)
  {
    hide Core, BatchError;
    FineDatesRenderable(dates, status, segments);
    var day := Day(Content(status, Manual, None, note, segments), actor);
    PutAllKeepsCore(db, States(db), user, dates, day, actor);
    assert States(PutAll(db, user, dates, day, actor)) == States(db);
  }

  // ----- everything else that happens to import jobs

  /** A change to one job outside commit and rollback: it does not complete the job or undo
      it, keeps its owner and its one item per date, and touches the items only under a new
      review version. The queue's own steps are of this kind. */
  ghost predicate ReviewChange(db: Db, jobId: nat, job: ReviewJob) {
    job.state !in {Completed, RolledBack} && OneItemPerDate(job.items)
    && (jobId in db.jobs ==>
          db.jobs[jobId].state !in {Completed, RolledBack} && job.target == db.jobs[jobId].target
          && job.reviewVersion >= db.jobs[jobId].reviewVersion
          && (job.reviewVersion == db.jobs[jobId].reviewVersion ==> job.items == db.jobs[jobId].items))
  }

  ghost function WithJob(db: Db, jobId: nat, job: ReviewJob): Db {
    db.(jobs := db.jobs[jobId := job])
  }

  lemma ReviewChangeKeepsInv(db: Db, jobId: nat, job: ReviewJob)
    requires Inv(db) && ReviewChange(db, jobId, job)
    ensures Inv(WithJob(db, jobId, job))
  {
    var next := WithJob(db, jobId, job);
    forall i | 0 <= i < |next.revisions| && IsImportWrite(next.revisions[i])
      ensures WriteOk(next, States(next), next.revisions[i])
    {
      assert WriteOk(db, States(db), db.revisions[i]);
    }
  }
}
