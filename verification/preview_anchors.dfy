/** Previews and the ledger together: the day a preview compared with is the day the commit
    meets. */
module PreviewAnchors {
  import opened Calendar
  import opened Common
  import opened DateOrder
  import opened ScheduleDomain
  import opened Snapshots
  import opened Review
  import opened Ledger
  import opened LedgerInvariant
  import opened LedgerOutcomes
  import opened LedgerJobs
  import opened LedgerRuns
  import opened LedgerHistory
  import opened LedgerWitnesses
  import ImagePreview
  import RuleExpansion
  import SheetPreview

  /** What loadExisting and querySchedules return about one user's days. */
  ghost predicate ReadFrom(existing: map<string, Existing>, db: Db, user: nat)
    requires RowsRenderable(db)
  {
    forall date: string :: ReadDay(existing, db, Key(user, date))
  }

  ghost predicate ReadDay(existing: map<string, Existing>, db: Db, key: Key)
    requires RowsRenderable(db)
  {
    if key in db.days then
      key.date in existing
      && existing[key.date] == Existing(db.days[key].id, db.days[key].version, StoredFromDay(DayOf(db.days[key])))
    else key.date !in existing
  }

  /** The item carries the identity and version of the row it was compared with, or neither. */
  ghost predicate Anchored(db: Db, user: nat, item: Item) {
    if Key(user, item.date) in db.days then AnchoredTo(db, Key(user, item.date), item)
    else item.anchorId.None? && item.anchorVersion.None?
  }

  lemma ImageItemsAnchored(draft: RuleExpansion.Draft, byDate: map<string, RuleExpansion.Entry>,
      m: ImagePreview.Mapping,
                           existing: map<string, Existing>, date: string, id: nat, db: Db, user: nat)
    requires RowsRenderable(db) && ReadFrom(existing, db, user) && date in byDate
    ensures Anchored(db, user, ImagePreview.ItemOf(draft, byDate, m, existing, date, id))
  {
    hide StoredFromDay, ImagePreview.SnapshotOf, ImagePreview.AllIssues;
    assert ReadDay(existing, db, Key(user, date));
  }

  lemma SheetItemsAnchored(entries: seq<SheetPreview.Entry>, existing: map<string, Existing>, item: Item, id: nat,
      db: Db, user: nat)
    requires RowsRenderable(db) && ReadFrom(existing, db, user)
    requires SheetPreview.ItemFits(item, entries, existing, id) && item.kind != Missing
    ensures Anchored(db, user, item)
  {
    hide StoredFromDay, SchedulesEquivalent;
    assert ReadDay(existing, db, Key(user, item.date));
  }

  /** The commit reaches the items that were reviewed: naming their version pins them, except for
      anchors whose row was deleted since. */
  lemma CommitSeesReviewedItem(run: seq<Db>, i: nat, j: nat, jobId: nat, actor: nat, n: nat)
    requires Run(run) && i <= j < |run| && RowsRenderable(run[j]) && jobId in run[i].jobs
             && n < |run[i].jobs[jobId].items|
    requires jobId in run[j].jobs && run[j].jobs[jobId].state == NeedsReview
    requires Commit(run[j], jobId, run[i].jobs[jobId].reviewVersion, actor).Ok?
    ensures run[j].jobs[jobId].target == run[i].jobs[jobId].target && n < |run[j].jobs[jobId].items|
    ensures run[j].jobs[jobId].items[n] in
              [run[i].jobs[jobId].items[n], run[i].jobs[jobId].items[n].(anchorId := None)]
  {
    hide Run, Inv, CommitItems;
    RunEvolvesJobs(run, i, j);
    assert JobEvolves(run[i].jobs[jobId], run[j].jobs[jobId]);
  }

  /** From preview to commit. A preview compared an item with the ledger at `made`; the item was
      on show at `i` under the review version the commit at `j` names. If the commit goes
      through and selects the item, the day it meets is exactly the day of the comparison,
      present or absent, if and only if the item has not lost the anchor of a deleted row. */
  lemma PreviewStandsAtCommit(run: seq<Db>, made: nat, i: nat, j: nat, jobId: nat, actor: nat, n: nat)
    requires Run(run) && made <= i <= j < |run| && RowsRenderable(run[j])
    requires jobId in run[i].jobs && n < |run[i].jobs[jobId].items|
    requires Anchored(run[made], run[i].jobs[jobId].target, run[i].jobs[jobId].items[n])
    requires jobId in run[j].jobs && run[j].jobs[jobId].state == NeedsReview
    requires Commit(run[j], jobId, run[i].jobs[jobId].reviewVersion, actor).Ok?
    requires Considered(run[i].jobs[jobId].items[n])
    ensures n < |run[j].jobs[jobId].items|
    ensures var seen, item := run[i].jobs[jobId].items[n], run[j].jobs[jobId].items[n];
            var key := Key(run[i].jobs[jobId].target, seen.date);
            (item == seen || item == seen.(anchorId := None))
            && (SameAt(run[made], run[j], key) <==> (item.anchorVersion.Some? ==> item.anchorId.Some?))
  {
    hide Run, Commit, Inv;
    CommitSeesReviewedItem(run, i, j, jobId, actor, n);
    CommitOverwritesOnlySeen(run, made, j, jobId, run[i].jobs[jobId].reviewVersion, actor, run[j].jobs[jobId].items[n]);
  }

  /** An item shown as SAME, or as a conflict to be settled for the import. */
  function Compared(date: string, rowId: nat, kind: ItemType): Item {
    Item(0, date, kind, Some(DAY_OFF), Some(rowId), Some(1), if kind == Conflict then Some(UseImported) else None)
  }

  /** The anchor does get lost: one import makes a day, another is previewed against it, the
      first is taken back, and the second commits over the missing day. An item shown as SAME
      then leaves no day at all, and one shown as a conflict creates it. */
  lemma DeletedRowLetsThrough(user: nat, date: string, kind: ItemType) returns (run: seq<Db>, item: Item)
    requires ParseDate(date).Some? && kind in {Same, Conflict}
    ensures Run(run) && Empty(run[0]) && |run| == 6
    ensures 1 in run[3].jobs && run[3].jobs[1].reviewVersion == 1 && run[3].jobs[1].items == [item]
    ensures item.kind == kind && Considered(item) && Key(user, date) in run[3].days && Anchored(run[3], user, item)
    ensures 1 in run[4].jobs && run[4].jobs[1].items == [item.(anchorId := None)]
    ensures RowsRenderable(run[4]) && Commit(run[4], 1, 1, user) == Ok(run[5])
    ensures Key(user, date) in run[5].days <==> kind == Conflict
  {
    hide Run, Inv, Commit, Rollback, DayError, DayFromStored;
    var key := Key(user, date);
    run := ImportCreatesDay(user, date);
    item := Compared(date, run[2].days[key].id, kind);
    InvAlways(run, 2);
    InvRenderable(run[2]);
    var undone := TakenBack(run, user, date);
    var second := Reviewed(user, [item]);
    OnlyOneJob(run);
    var previewed := WithJob(run[2], 1, second);
    ReviewChangeKeepsInv(run[2], 1, second);
    run := LongerRun(run, ChangeJob(1, second), previewed);
    var dropped := TakenBackLater(run[2], previewed, undone, item, user);
    InvAlways(run, 3);
    run := LongerRun(run, RollbackImport(0, user), dropped);
    InvAlways(run, 4);
    var last := SecondCommit(dropped, item.(anchorId := None), user);
    run := LongerRun(run, CommitImport(1, 1, user), last);
  }

  lemma OnlyOneJob(run: seq<Db>)
    requires |run| == 3 && RowsRenderable(run[1]) && exists job :: run[1] == WithJob(UNWRITTEN, 0, job)
    requires exists expected, actor :: Commit(run[1], 0, expected, actor) == Ok(run[2])
    ensures 1 !in run[2].jobs
  {
    hide CommitItems;
    var expected, actor :| Commit(run[1], 0, expected, actor) == Ok(run[2]);
    var job := run[1].jobs[0];
    if job.state == NeedsReview {
      CommitItemsKeepJobs(run[1], job, 0, ByDate(job.items, ItemDate), actor);
    }
  }

  /** The rollback of the first import still goes through after the second preview, and takes
      the row and with it the anchor. */
  lemma TakenBackLater(db: Db, previewed: Db, undone: Db, item: Item, user: nat) returns (next: Db)
    requires Inv(db) && RowsRenderable(db) && 0 in db.jobs && db.jobs[0].state == Completed && 1 !in db.jobs
    requires previewed == WithJob(db, 1, Reviewed(user, [item])) && Inv(previewed)
    requires Rollback(db, 0, user) == Ok(undone)
    requires Key(user, item.date) in db.days && Key(user, item.date) !in undone.days
    requires item.anchorId == Some(db.days[Key(user, item.date)].id)
    ensures RowsRenderable(previewed) && Step(previewed, RollbackImport(0, user), next)
    ensures Key(user, item.date) !in next.days
    ensures 1 in next.jobs && next.jobs[1] == Reviewed(user, [item.(anchorId := None)])
  {
    hide Inv, Rollback, ReadBack, KeepReferences, DayFromStored;
    var key := Key(user, item.date);
    RollbackEffect(db, 0, user);
    assert WrittenBy(db, 0, key);
    var r :| WriteOf(db, 0, r) && WriteKey(r) == key;
    assert UntouchedSince(previewed, 0);
    RollbackEffect(previewed, 0, user);
    RollbackLoosens(previewed, 0, user);
    next := Rollback(previewed, 0, user).value;
    assert WriteOf(previewed, 0, r) && Undone(previewed, next, key, r);
    assert db.days[key].id in RowsGone(previewed, next);
    var reopened := next.jobs[0 := next.jobs[0].(state := Completed)];
    assert 1 in previewed.jobs && 1 in reopened.Keys;
    assert JobFollows(previewed.jobs[1], reopened[1], RowsGone(previewed, next));
    assert next.jobs[1].items == [item.(anchorId := None)];
  }

  lemma SecondCommit(db: Db, item: Item, user: nat) returns (next: Db)
    requires Inv(db) && 1 in db.jobs && db.jobs[1] == Reviewed(user, [item])
    requires item.draft == Some(DAY_OFF) && item.anchorId.None? && ParseDate(item.date).Some?
    requires Key(user, item.date) !in db.days
    requires item.kind == Same || (item.kind == Conflict && item.decision == Some(UseImported))
    requires item.kind == Same ==> item.decision.None?
    ensures RowsRenderable(db) && Step(db, CommitImport(1, 1, user), next)
    ensures Key(user, item.date) in next.days <==> item.kind == Conflict
  {
    hide Inv, Commit, DayFromStored, DayError, Records, SameElsewhere;
    var job := db.jobs[1];
    InvRenderable(db);
    DayOffIsValid(item.date, DayFromStored(DAY_OFF));
    assert job.items[0] == item && Trusted(item);
    assert AllFine(db, job, 1, job.items, user);
    CommitEffect(db, 1, 1, user);
    next := Commit(db, 1, 1, user).value;
    assert ItemOutcome(db, next, job, 1, job.items[0], user);
  }
}
