/** Concrete runs in which a day is deleted under somebody who has seen it. */
module LedgerWitnesses {
  import opened Calendar
  import opened Common
  import opened ScheduleDomain
  import opened Snapshots
  import opened Review
  import opened Ledger
  import opened LedgerInvariant
  import opened LedgerOutcomes
  import opened LedgerRuns
  import opened LedgerHistory

  const UNWRITTEN := Db(map[], [], map[], {}, 0)

  /** A day off, as a preview stores it. */
  const DAY_OFF := StoredSchedule(Rest, ImageAI, None, "", 0, [])

  function NewDayOff(date: string): Item {
    Item(0, date, New, Some(DAY_OFF), None, None, None)
  }

  function Reviewed(user: nat, items: seq<Item>): ReviewJob {
    ReviewJob(NeedsReview, user, ImageAI, 1, items)
  }

  lemma DayOffIsValid(date: string, day: Day)
    requires ParseDate(date).Some? && day == DayFromStored(DAY_OFF)
    ensures DayError(date, day.content.status, day.content.segments).None?
  {
    assert day.content.segments == [];
  }

  /** An import creates the day of an empty ledger: three states, the last one with the row. */
  lemma ImportCreatesDay(user: nat, date: string) returns (run: seq<Db>)
    requires ParseDate(date).Some?
    ensures Run(run) && |run| == 3 && run[0] == UNWRITTEN
    ensures run[1] == WithJob(UNWRITTEN, 0, Reviewed(user, [NewDayOff(date)])) && RowsRenderable(run[1])
    ensures Commit(run[1], 0, 1, user) == Ok(run[2])
    ensures 0 in run[2].jobs && run[2].jobs[0].state == Completed
    ensures var key := Key(user, date);
            key in run[2].days && run[2].days[key].version == 1
            && run[2].days[key].content.sourceImportId == Some(0)
  {
    var db := WithJob(UNWRITTEN, 0, Reviewed(user, [NewDayOff(date)]));
    EmptyHasInv(UNWRITTEN);
    assert Step(UNWRITTEN, ChangeJob(0, Reviewed(user, [NewDayOff(date)])), db);
    ReviewChangeKeepsInv(UNWRITTEN, 0, Reviewed(user, [NewDayOff(date)]));
    var next := FirstCommit(db, user, date);
    run := [UNWRITTEN, db, next];
    assert Step(db, CommitImport(0, 1, user), next);
    assert Next(UNWRITTEN, db) && Next(db, next);
  }

  lemma FirstCommit(db: Db, user: nat, date: string) returns (next: Db)
    requires ParseDate(date).Some? && Inv(db) && RowsRenderable(db)
    requires db == WithJob(UNWRITTEN, 0, Reviewed(user, [NewDayOff(date)]))
    ensures Commit(db, 0, 1, user) == Ok(next) && 0 in next.jobs && next.jobs[0].state == Completed
    ensures var key := Key(user, date);
            key in next.days && next.days[key].version == 1 && next.days[key].content.sourceImportId == Some(0)
  {
    hide Inv, Commit, CommitOutcome, DayFromStored, DayError;
    var job := db.jobs[0];
    var item := NewDayOff(date);
    DayOffIsValid(date, DayFromStored(DAY_OFF));
    assert job.items[0] == item && Trusted(item);
    assert AllFine(db, job, 0, job.items, user);
    CommitEffect(db, 0, 1, user);
    next := Commit(db, 0, 1, user).value;
    FirstOutcome(db, next, job, user);
  }

  lemma FirstOutcome(db: Db, next: Db, job: ReviewJob, user: nat)
    requires RowsRenderable(db) && db.days == map[] && 0 in db.jobs
    requires |job.items| == 1 && TakenOver(job.items[0]) && CommitOutcome(db, next, job, 0, job.items, user)
    ensures var key := Key(job.target, job.items[0].date);
            key in next.days && next.days[key].version == 1 && next.days[key].content.sourceImportId == Some(0)
  {
    hide TakenOver, Records, SameElsewhere, DayFromStored;
    assert ItemOutcome(db, next, job, 0, job.items[0], user);
  }

  lemma LongerRun(run: seq<Db>, event: Event, next: Db) returns (longer: seq<Db>)
    requires Run(run) && RowsRenderable(run[|run| - 1]) && Step(run[|run| - 1], event, next)
    ensures longer == run + [next] && Run(longer)
  {
    hide Step, Inv;
    longer := run + [next];
    assert Next(run[|run| - 1], next);
    forall i | 0 <= i < |longer| - 1 ensures Next(longer[i], longer[i + 1]) {
      if i < |run| - 1 {
        assert longer[i] == run[i] && longer[i + 1] == run[i + 1];
      }
    }
  }

  /** The lost update at version 1: an import makes a day and somebody sees it, the import is
      taken back, somebody else enters the day anew, and the first one's save, naming version
      1, overwrites what was never shown to them. */
  lemma StaleSaveAtVersionOne(user: nat, date: string) returns (run: seq<Db>, save: Event)
    requires ParseDate(date).Some?
    ensures Run(run) && Empty(run[0]) && |run| == 6
    ensures save.SaveDay? && save.key == Key(user, date)
    ensures save.key in run[2].days && save.version == run[2].days[save.key].version == 1
    ensures save.key !in run[3].days
    ensures save.key in run[4].days && run[4].days[save.key].content != run[2].days[save.key].content
    ensures RowsRenderable(run[4]) && Step(run[4], save, run[5])
  {
    hide Run, Inv, Save, Commit, Rollback, Step;
    var key := Key(user, date);
    run := ImportCreatesDay(user, date);
    var undone := TakenBack(run, user, date);
    run := LongerRun(run, RollbackImport(0, user), undone);
    var again := SavedAs(run, key, 0, user);
    run := LongerRun(run, SaveDay(key, Rest, "", [], 0, user), again);
    save := SaveDay(key, Rest, "", [], 1, user);
    var last := SavedAs(run, key, 1, user);
    run := LongerRun(run, save, last);
  }

  /** The rollback of that import deletes the day. */
  lemma TakenBack(run: seq<Db>, user: nat, date: string) returns (undone: Db)
    requires Run(run) && |run| == 3 && run[0] == UNWRITTEN && RowsRenderable(run[1])
    requires run[1] == WithJob(UNWRITTEN, 0, Reviewed(user, [NewDayOff(date)]))
    requires Commit(run[1], 0, 1, user) == Ok(run[2])
    ensures RowsRenderable(run[2]) && Rollback(run[2], 0, user) == Ok(undone) && Key(user, date) !in undone.days
    ensures Step(run[2], RollbackImport(0, user), undone)
  {
    hide Inv, Commit, Rollback, Run;
    InvAlways(run, 1);
    CommitThenRollback(run[1], 0, 1, user, user);
    undone := Rollback(run[2], 0, user).value;
    assert BackAsItWas(run[1], undone, Key(user, date), WrittenDate(run[1].jobs[0], Key(user, date)));
  }

  /** A day off entered by hand at the end of a run. */
  lemma SavedAs(run: seq<Db>, key: Key, version: nat, actor: nat) returns (next: Db)
    requires Run(run) && ParseDate(key.date).Some?
    requires version == if key in run[|run| - 1].days then run[|run| - 1].days[key].version else 0
    ensures RowsRenderable(run[|run| - 1])
    ensures Step(run[|run| - 1], SaveDay(key, Rest, "", [], version, actor), next)
    ensures key in next.days && next.days[key].content.sourceImportId == None
    ensures key !in run[|run| - 1].days ==> next.days[key].version == 1
  {
    hide Inv, Save;
    var db := run[|run| - 1];
    InvAlways(run, |run| - 1);
    InvRenderable(db);
    if key in db.days {
      SavedRowIsLater(db, key);
    }
    SaveEffect(db, key, Rest, "", [], version, actor);
    next := Save(db, key, Rest, "", [], version, actor).value;
  }
}
