/** What a commit and a rollback do to every day at once, and that one undoes the other. */
module LedgerOutcomes {
  import opened Common
  import opened Calendar
  import opened DateOrder
  import opened Text
  import opened ScheduleDomain
  import opened Snapshots
  import opened Review
  import opened Ledger
  import opened LedgerInvariant

  /** The day stands as it stood. */
  predicate SameAt(db: Db, next: Db, key: Key) {
    if key in db.days then key in next.days && next.days[key] == db.days[key] else key !in next.days
  }

  ghost predicate SameElsewhere(db: Db, next: Db, user: nat, dates: set<string>) {
    forall key: Key :: !(key.user == user && key.date in dates) ==> SameAt(db, next, key)
  }

  /** The foreign keys a write may lean on. */
  ghost predicate SameReferences(db: Db, next: Db) {
    db.jobs.Keys == next.jobs.Keys && db.shifts == next.shifts
  }

  lemma SameReferencesKept(db: Db, next: Db, c: Content)
    requires SameReferences(db, next)
    ensures KeepReferences(db, c) == KeepReferences(next, c)
  {
    assert forall j :: j in db.jobs <==> j in next.jobs;
  }

  // ----- commit

  /** The item says something about its day: it is typed NEW, SAME or CONFLICT, has a draft, and
      nobody decided to skip it. */
  predicate Considered(item: Item) {
    (item.kind == New || item.kind == Same || item.kind == Conflict) && item.draft.Some? && item.decision != Some(Skip)
  }

  /** The draft of the item takes the place of its day: typed NEW or CONFLICT, with nothing
      decided or for the import. */
  predicate TakenOver(item: Item) {
    (item.kind == New || item.kind == Conflict) && item.draft.Some?
    && (item.decision == None || item.decision == Some(UseImported))
  }

  /** The day is as the preview had found it: missing, or the row it named at that version. */
  predicate AsFound(db: Db, key: Key, item: Item) {
    match item.anchorId
    case None => key !in db.days
    case Some(id) => key in db.days && db.days[key].id == id && Some(db.days[key].version) == item.anchorVersion
  }

  /** What the day holds after the item was taken over: the draft, marked as coming from the job. */
  function TakenContent(job: ReviewJob, jobId: nat, item: Item): (c: Content)
    requires item.draft.Some?
    ensures StartsHaveEnds(c.segments)
  {
    var draft := DayFromStored(item.draft.value).content;
    Content(draft.status, job.source, Some(jobId), draft.note, draft.segments)
  }

  /** What one item needs from the ledger as it stood before the commit. */
  ghost predicate ItemFine(db: Db, job: ReviewJob, jobId: nat, item: Item, actor: nat) {
    !(item.kind == Conflict && item.decision.None?)
    && (Considered(item) ==> AsFound(db, Key(job.target, item.date), item))
    && (TakenOver(item) ==>
          var content := TakenContent(job, jobId, item);
          DayError(item.date, content.status, content.segments).None?)
  }

  /** The row a written item leaves behind. */
  ghost predicate Imported(db: Db, next: Db, job: ReviewJob, jobId: nat, item: Item, actor: nat)
    requires item.draft.Some?
  {
    var key := Key(job.target, item.date);
    key in next.days
    && next.days[key].content == ReadBack(KeepReferences(db, TakenContent(job, jobId, item)))
    && if key in db.days then
         next.days[key].id == db.days[key].id && next.days[key].version == db.days[key].version + 1
         && next.days[key].createdBy == db.days[key].createdBy
       else next.days[key].id >= db.nextRow && next.days[key].version == 1 && next.days[key].createdBy == actor
  }

  ghost predicate ItemOutcome(db: Db, next: Db, job: ReviewJob, jobId: nat, item: Item, actor: nat) {
    if TakenOver(item) then Imported(db, next, job, jobId, item, actor)
    else SameAt(db, next, Key(job.target, item.date))
  }

  function Dates(items: seq<Item>): set<string> {
    set i | 0 <= i < |items| :: items[i].date
  }

  /** A record that says how to take the write back. */
  ghost predicate Undoable(db: Db, next: Db, w: Revision)
    requires RowsRenderable(db)
  {
    IsImportWrite(w) && StillOwnedBy(next, w)
    && (if WriteKey(w) in db.days then
          w.change == ImportUpdate && w.beforeVersion == Some(db.days[WriteKey(w)].version)
          && w.before == Some(StoredFromDay(DayOf(db.days[WriteKey(w)])))
        else w.change == ImportCreate && w.beforeVersion == None && w.before == None)
    && (WriteKey(w) in db.days ==>
          next.days[WriteKey(w)].id == db.days[WriteKey(w)].id
          && next.days[WriteKey(w)].version == db.days[WriteKey(w)].version + 1
          && next.days[WriteKey(w)].createdBy == db.days[WriteKey(w)].createdBy)
  }

  ghost predicate StillOwnedBy(db: Db, w: Revision) {
    w.job.Some? && StillOwned(db, WriteKey(w), w, w.job.value)
  }

  /** The tests of the commit are these, and what it writes is this. */
  lemma ItemByFields(db: Db, key: Key, job: ReviewJob, jobId: nat, item: Item, actor: nat)
    ensures Selected(item) <==> Considered(item)
    ensures Written(item) <==> TakenOver(item)
    ensures AnchorHolds(db, key, item) <==> AsFound(db, key, item)
    ensures item.draft.Some? ==>
              ImportedDay(job, jobId, item, actor) == Day(TakenContent(job, jobId, item), actor)
  {
    hide DayFromStored;
    match item.decision
    case None =>
    case Some(decision) =>
      assert decision == KeepExisting || decision == UseImported || decision == Skip;
  }

  predicate SomeTrusted(items: seq<Item>) {
    exists i :: 0 <= i < |items|
                && (items[i].kind == New || items[i].kind == Same || items[i].kind == Conflict
                    || items[i].decision == Some(Skip))
  }

  lemma TrustedByFields(items: seq<Item>)
    ensures AnyTrusted(items) <==> SomeTrusted(items)
  {
    if AnyTrusted(items) {
      var i :| 0 <= i < |items| && Trusted(items[i]);
      assert items[i].kind == New || items[i].kind == Same || items[i].kind == Conflict
             || items[i].decision == Some(Skip);
    }
    if SomeTrusted(items) {
      var i :| 0 <= i < |items| && (items[i].kind == New || items[i].kind == Same || items[i].kind == Conflict
                                    || items[i].decision == Some(Skip));
      assert Trusted(items[i]);
    }
  }

  lemma CommitItemOutcome(db: Db, job: ReviewJob, jobId: nat, item: Item, actor: nat)
    requires RowsRenderable(db) && jobId in db.jobs
    ensures CommitItem(db, job, jobId, item, actor).Ok? <==> ItemFine(db, job, jobId, item, actor)
    ensures CommitItem(db, job, jobId, item, actor).Ok? ==>
      var next := CommitItem(db, job, jobId, item, actor).value;
      ItemOutcome(db, next, job, jobId, item, actor) && SameReferences(db, next)
      && SameElsewhere(db, next, job.target, {item.date}) && next.nextRow >= db.nextRow
      && if TakenOver(item) then
           |next.revisions| == |db.revisions| + 1 && next.revisions[..|db.revisions|] == db.revisions
           && var w := next.revisions[|db.revisions|];
              WriteKey(w) == Key(job.target, item.date) && w.job == Some(jobId) && Undoable(db, next, w)
         else next == db
  {
    hide DayError, InOrder, StoredFromDay, KeepShifts, Selected, Written, AnchorHolds, AsFound, ImportedDay,
         DayFromStored;
    ItemByFields(db, Key(job.target, item.date), job, jobId, item, actor);
  }

  lemma FineLater(db: Db, mid: Db, job: ReviewJob, jobId: nat, item: Item, actor: nat)
    requires SameAt(db, mid, Key(job.target, item.date))
    ensures ItemFine(db, job, jobId, item, actor) <==> ItemFine(mid, job, jobId, item, actor)
  {
  }

  lemma OutcomeLater(db: Db, mid: Db, next: Db, job: ReviewJob, jobId: nat, item: Item, actor: nat)
    requires SameAt(db, mid, Key(job.target, item.date)) && SameReferences(db, mid) && db.nextRow <= mid.nextRow
    requires ItemOutcome(mid, next, job, jobId, item, actor)
    ensures ItemOutcome(db, next, job, jobId, item, actor)
  {
    hide DayError, DayFromStored, ReadBack;
    if TakenOver(item) {
      SameReferencesKept(db, mid, TakenContent(job, jobId, item));
    }
  }

  lemma OutcomeStays(db: Db, mid: Db, next: Db, job: ReviewJob, jobId: nat, item: Item, actor: nat)
    requires SameAt(mid, next, Key(job.target, item.date))
    requires ItemOutcome(db, mid, job, jobId, item, actor)
    ensures ItemOutcome(db, next, job, jobId, item, actor)
  {
    hide DayError, DayFromStored, ReadBack;
  }

  /** The job's new records: one for each written item, each able to take its write back. */
  ghost predicate Records(db: Db, next: Db, user: nat, jobId: nat, dates: set<string>)
    requires RowsRenderable(db)
  {
    |next.revisions| >= |db.revisions| && next.revisions[..|db.revisions|] == db.revisions
    && forall i :: |db.revisions| <= i < |next.revisions| ==> Record(db, next, user, jobId, dates, next.revisions[i])
  }

  ghost predicate Record(db: Db, next: Db, user: nat, jobId: nat, dates: set<string>, w: Revision)
    requires RowsRenderable(db)
  {
    w.user == user && w.job == Some(jobId) && w.date in dates && Undoable(db, next, w)
  }

  ghost predicate Recorded(db: Db, next: Db, key: Key) {
    exists i :: |db.revisions| <= i < |next.revisions| && WriteKey(next.revisions[i]) == key
  }

  lemma RecordLater(db: Db, mid: Db, next: Db, user: nat, jobId: nat, dates: set<string>, all: set<string>, w: Revision)
    requires RowsRenderable(db) && RowsRenderable(mid)
    requires SameAt(db, mid, WriteKey(w)) && Record(mid, next, user, jobId, dates, w) && dates <= all
    ensures Record(db, next, user, jobId, all, w)
  {
    hide StoredFromDay;
  }

  lemma RecordStays(db: Db, mid: Db, next: Db, user: nat, jobId: nat, dates: set<string>, all: set<string>, w: Revision)
    requires RowsRenderable(db)
    requires SameAt(mid, next, WriteKey(w)) && Record(db, mid, user, jobId, dates, w) && dates <= all
    ensures Record(db, next, user, jobId, all, w)
  {
    hide StoredFromDay;
  }

  ghost predicate CommitOutcome(db: Db, next: Db, job: ReviewJob, jobId: nat, items: seq<Item>, actor: nat)
    requires RowsRenderable(db)
  {
    (forall i :: 0 <= i < |items| ==> ItemOutcome(db, next, job, jobId, items[i], actor))
    && SameElsewhere(db, next, job.target, Dates(items)) && SameReferences(db, next) && next.nextRow >= db.nextRow
    && Records(db, next, job.target, jobId, Dates(items))
    && forall i :: 0 <= i < |items| && TakenOver(items[i]) ==> Recorded(db, next, Key(job.target, items[i].date))
  }

  lemma ItemDates(items: seq<Item>)
    requires |items| > 0 && OneItemPerDate(items)
    ensures Dates(items) == {items[0].date} + Dates(items[1..]) && items[0].date !in Dates(items[1..])
  {
  }

  lemma SameTwice(a: Db, b: Db, c: Db, key: Key)
    requires SameAt(a, b, key) && SameAt(b, c, key)
    ensures SameAt(a, c, key)
  {
  }

  lemma ReferencesStay(a: Db, b: Db, c: Db)
    requires SameReferences(a, b) && SameReferences(b, c)
    ensures SameReferences(a, c)
  {
  }

  lemma OutcomeStep(db: Db, mid: Db, next: Db, job: ReviewJob, jobId: nat, items: seq<Item>, actor: nat)
    requires RowsRenderable(db) && RowsRenderable(mid) && jobId in db.jobs && |items| > 0 && OneItemPerDate(items)
    requires CommitItem(db, job, jobId, items[0], actor) == Ok(mid)
    requires CommitOutcome(mid, next, job, jobId, items[1..], actor)
    ensures CommitOutcome(db, next, job, jobId, items, actor)
  {
    hide CommitItem, ItemOutcome, Undoable, TakenOver, Records, SameReferences, Recorded, Dates, SameAt;
    var item, rest := items[0], items[1..];
    CommitItemOutcome(db, job, jobId, item, actor);
    ItemDates(items);
    ReferencesStay(db, mid, next);
    forall i | 0 <= i < |items| ensures ItemOutcome(db, next, job, jobId, items[i], actor) {
      if i == 0 {
        OutcomeStays(db, mid, next, job, jobId, item, actor);
      } else {
        assert items[i] == rest[i - 1] && items[i].date != item.date;
        assert SameAt(db, mid, Key(job.target, items[i].date));
        OutcomeLater(db, mid, next, job, jobId, items[i], actor);
      }
    }
    forall key: Key | !(key.user == job.target && key.date in Dates(items)) ensures SameAt(db, next, key) {
      assert SameAt(db, mid, key) && SameAt(mid, next, key);
      SameTwice(db, mid, next, key);
    }
    RecordsStep(db, mid, next, job, jobId, items, actor);
  }

  /** The records made so far and those made later are the records of the whole. */
  lemma RecordsStep(db: Db, mid: Db, next: Db, job: ReviewJob, jobId: nat, items: seq<Item>, actor: nat)
    requires RowsRenderable(db) && RowsRenderable(mid) && jobId in db.jobs && |items| > 0 && OneItemPerDate(items)
    requires CommitItem(db, job, jobId, items[0], actor) == Ok(mid)
    requires CommitOutcome(mid, next, job, jobId, items[1..], actor)
    ensures Records(db, next, job.target, jobId, Dates(items))
    ensures forall i :: 0 <= i < |items| && TakenOver(items[i]) ==> Recorded(db, next, Key(job.target, items[i].date))
  {
    hide CommitItem, ItemOutcome, Undoable, TakenOver, SameReferences, IsImportWrite, Records, SameElsewhere;
    CommitItemOutcome(db, job, jobId, items[0], actor);
    EarlierRecordsKept(db, mid, next, job.target, jobId, Dates(items[1..]));
    RecordsGrow(db, mid, next, job, jobId, items, actor);
    forall i | 0 <= i < |items| && TakenOver(items[i]) ensures Recorded(db, next, Key(job.target, items[i].date)) {
      if i == 0 {
        assert WriteKey(next.revisions[|db.revisions|]) == Key(job.target, items[0].date);
      } else {
        assert items[i] == items[1..][i - 1] && Recorded(mid, next, Key(job.target, items[i].date));
      }
    }
  }

  lemma EarlierRecordsKept(db: Db, mid: Db, next: Db, user: nat, jobId: nat, dates: set<string>)
    requires RowsRenderable(mid) && Records(mid, next, user, jobId, dates)
    requires |mid.revisions| >= |db.revisions| && mid.revisions[..|db.revisions|] == db.revisions
    ensures |next.revisions| >= |mid.revisions| && next.revisions[..|db.revisions|] == db.revisions
    ensures forall i :: 0 <= i < |mid.revisions| ==> next.revisions[i] == mid.revisions[i]
  {
    hide Record;
    var n, m := |db.revisions|, |mid.revisions|;
    assert next.revisions[..n] == next.revisions[..m][..n] == mid.revisions[..n];
    forall i | 0 <= i < m ensures next.revisions[i] == mid.revisions[i] {
      assert next.revisions[i] == next.revisions[..m][i];
    }
  }

  lemma RecordsGrow(db: Db, mid: Db, next: Db, job: ReviewJob, jobId: nat, items: seq<Item>, actor: nat)
    requires RowsRenderable(db) && RowsRenderable(mid) && jobId in db.jobs && |items| > 0 && OneItemPerDate(items)
    requires CommitItem(db, job, jobId, items[0], actor) == Ok(mid)
    requires CommitOutcome(mid, next, job, jobId, items[1..], actor)
    ensures Records(db, next, job.target, jobId, Dates(items))
  {
    hide CommitItem, ItemOutcome, Undoable, TakenOver, SameReferences, Recorded, SameElsewhere, Record, Dates;
    CommitItemOutcome(db, job, jobId, items[0], actor);
    ItemDates(items);
    EarlierRecordsKept(db, mid, next, job.target, jobId, Dates(items[1..]));
    forall i | |db.revisions| <= i < |next.revisions|
      ensures Record(db, next, job.target, jobId, Dates(items), next.revisions[i])
    {
      if i < |mid.revisions| {
        FirstRecordStands(db, mid, next, job.target, jobId, items, next.revisions[i]);
      } else {
        LaterRecordStands(db, mid, next, job.target, jobId, items, next.revisions[i]);
      }
    }
  }

  lemma FirstRecordStands(db: Db, mid: Db, next: Db, user: nat, jobId: nat, items: seq<Item>, w: Revision)
    requires RowsRenderable(db) && |items| > 0 && OneItemPerDate(items)
    requires WriteKey(w) == Key(user, items[0].date) && w.job == Some(jobId) && Undoable(db, mid, w)
    requires SameElsewhere(mid, next, user, Dates(items[1..]))
    ensures Record(db, next, user, jobId, Dates(items), w)
  {
    hide Undoable, SameAt, Dates;
    ItemDates(items);
    assert SameAt(mid, next, WriteKey(w));
    RecordStays(db, mid, next, user, jobId, {items[0].date}, Dates(items), w);
  }

  lemma LaterRecordStands(db: Db, mid: Db, next: Db, user: nat, jobId: nat, items: seq<Item>, w: Revision)
    requires RowsRenderable(db) && RowsRenderable(mid) && |items| > 0 && OneItemPerDate(items)
    requires Record(mid, next, user, jobId, Dates(items[1..]), w)
    requires SameElsewhere(db, mid, user, {items[0].date})
    ensures Record(db, next, user, jobId, Dates(items), w)
  {
    hide Undoable, SameAt, Dates;
    ItemDates(items);
    assert SameAt(db, mid, WriteKey(w));
    RecordLater(db, mid, next, user, jobId, Dates(items[1..]), Dates(items), w);
  }

  ghost predicate AllFine(db: Db, job: ReviewJob, jobId: nat, items: seq<Item>, actor: nat) {
    forall i :: 0 <= i < |items| ==> ItemFine(db, job, jobId, items[i], actor)
  }

  lemma AllFineStep(db: Db, mid: Db, job: ReviewJob, jobId: nat, items: seq<Item>, actor: nat)
    requires |items| > 0 && OneItemPerDate(items) && SameElsewhere(db, mid, job.target, {items[0].date})
    ensures AllFine(db, job, jobId, items, actor) <==>
            ItemFine(db, job, jobId, items[0], actor) && AllFine(mid, job, jobId, items[1..], actor)
  {
    hide ItemFine;
    var rest := items[1..];
    forall i | 0 <= i < |rest|
      ensures rest[i] == items[i + 1]
      ensures ItemFine(db, job, jobId, rest[i], actor) <==> ItemFine(mid, job, jobId, rest[i], actor)
    {
      assert items[0].date != items[i + 1].date;
      FineLater(db, mid, job, jobId, rest[i], actor);
    }
    assert forall i :: 0 < i < |items| ==> items[i] == rest[i - 1];
  }

  /** A commit succeeds exactly when every item is fine against the ledger it started from,
      and then every day is as its item says and no other day has changed. */
  lemma {:induction false} CommitItemsOutcome(db: Db, job: ReviewJob, jobId: nat, items: seq<Item>, actor: nat)
    requires RowsRenderable(db) && jobId in db.jobs && OneItemPerDate(items)
    ensures CommitItems(db, job, jobId, items, actor).Ok? <==> AllFine(db, job, jobId, items, actor)
    ensures CommitItems(db, job, jobId, items, actor).Ok? ==>
              CommitOutcome(db, CommitItems(db, job, jobId, items, actor).value, job, jobId, items, actor)
    decreases |items|
  {
    if items != [] {
      hide CommitItem, ItemFine, ItemOutcome, Undoable, TakenOver, CommitOutcome, SameElsewhere;
      CommitItemOutcome(db, job, jobId, items[0], actor);
      if CommitItem(db, job, jobId, items[0], actor).Ok? {
        var mid := CommitItem(db, job, jobId, items[0], actor).value;
        CommitItemKeepsRenderable(db, job, jobId, items[0], actor);
        CommitItemsOutcome(mid, job, jobId, items[1..], actor);
        AllFineStep(db, mid, job, jobId, items, actor);
        if CommitItems(mid, job, jobId, items[1..], actor).Ok? {
          OutcomeStep(db, mid, CommitItems(mid, job, jobId, items[1..], actor).value, job, jobId, items, actor);
        }
      }
    }
  }

  lemma OutcomeIgnoresOrder(db: Db, next: Db, job: ReviewJob, jobId: nat, items: seq<Item>, sorted: seq<Item>,
      actor: nat)
    requires RowsRenderable(db) && (forall x :: x in items <==> x in sorted)
    ensures AllFine(db, job, jobId, sorted, actor) ==> AllFine(db, job, jobId, items, actor)
    ensures CommitOutcome(db, next, job, jobId, sorted, actor) ==> CommitOutcome(db, next, job, jobId, items, actor)
  {
    hide ItemFine, ItemOutcome, Undoable, TakenOver, SameAt;
    forall i | 0 <= i < |items| ensures items[i] in sorted {
    }
    forall i | 0 <= i < |sorted| ensures sorted[i] in items {
    }
    assert Dates(items) == Dates(sorted);
  }

  lemma OutcomeIgnoresState(db: Db, next: Db, job: ReviewJob, jobId: nat, items: seq<Item>, actor: nat, state: JobState)
    requires RowsRenderable(db) && jobId in next.jobs && CommitOutcome(db, next, job, jobId, items, actor)
    ensures CommitOutcome(db, next.(jobs := next.jobs[jobId := job.(state := state)]), job, jobId, items, actor)
  {
    hide DayFromStored, ReadBack, KeepReferences, StoredFromDay;
    var last := next.(jobs := next.jobs[jobId := job.(state := state)]);
    forall i | 0 <= i < |items| ensures ItemOutcome(db, last, job, jobId, items[i], actor) {
      assert ItemOutcome(db, next, job, jobId, items[i], actor);
    }
    forall i | |db.revisions| <= i < |last.revisions|
      ensures Record(db, last, job.target, jobId, Dates(items), last.revisions[i])
    {
      assert Record(db, next, job.target, jobId, Dates(items), next.revisions[i]);
    }
    forall key: Key | !(key.user == job.target && key.date in Dates(items)) ensures SameAt(db, last, key) {
      assert SameAt(db, next, key);
    }
    forall i | 0 <= i < |items| && TakenOver(items[i]) ensures Recorded(db, last, Key(job.target, items[i].date)) {
      assert Recorded(db, next, Key(job.target, items[i].date));
    }
  }

  /** The effect of a commit on the whole ledger, decided on the state it found. */
  lemma CommitEffect(db: Db, jobId: nat, expected: nat, actor: nat)
    requires Inv(db) && RowsRenderable(db) && jobId in db.jobs && db.jobs[jobId].state == NeedsReview
    ensures var job := db.jobs[jobId];
            Commit(db, jobId, expected, actor).Ok? <==>
            expected > 0 && expected == job.reviewVersion && SomeTrusted(job.items)
            && AllFine(db, job, jobId, job.items, actor)
    ensures Commit(db, jobId, expected, actor).Ok? ==>
              var next := Commit(db, jobId, expected, actor).value;
              CommitOutcome(db, next, db.jobs[jobId], jobId, db.jobs[jobId].items, actor)
              && jobId in next.jobs && next.jobs[jobId].state == Completed
  {
    hide AllFine, CommitOutcome, CommitItems;
    var job := db.jobs[jobId];
    var sorted := ByDate(job.items, ItemDate);
    TrustedByFields(job.items);
    ByDateKeepsDates(job.items, ItemDate);
    CommitItemsOutcome(db, job, jobId, sorted, actor);
    OutcomeIgnoresOrder(db, db, job, jobId, sorted, job.items, actor);
    OutcomeIgnoresOrder(db, db, job, jobId, job.items, sorted, actor);
    if CommitItems(db, job, jobId, sorted, actor).Ok? {
      var next := CommitItems(db, job, jobId, sorted, actor).value;
      OutcomeIgnoresOrder(db, next, job, jobId, job.items, sorted, actor);
      OutcomeKeepsJobs(db, next, job, jobId, job.items, actor);
      OutcomeIgnoresState(db, next, job, jobId, job.items, actor, Completed);
    }
  }

  /** What a commit that went through did to the day of one item, by the fields of the item. A
      NEW or CONFLICT item with a draft, and with nothing decided or the import chosen, leaves
      its draft there as the next version of the day; with any other type or decision, or
      without a draft, the day stands as it stood. */
  lemma CommitByFields(db: Db, jobId: nat, expected: nat, actor: nat, n: nat)
    requires Inv(db) && RowsRenderable(db) && jobId in db.jobs && db.jobs[jobId].state == NeedsReview
    requires n < |db.jobs[jobId].items| && Commit(db, jobId, expected, actor).Ok?
    ensures var job, item, next := db.jobs[jobId], db.jobs[jobId].items[n], Commit(db, jobId, expected, actor).value;
            var key := Key(job.target, item.date);
            if (item.kind == New || item.kind == Conflict) && item.draft.Some?
               && (item.decision == None || item.decision == Some(UseImported)) then
              key in next.days
              && next.days[key].version == (if key in db.days then db.days[key].version + 1 else 1)
              && next.days[key].content.status == item.draft.value.status
              && next.days[key].content.note == item.draft.value.note
              && next.days[key].content.sourceType == job.source
              && next.days[key].content.sourceImportId == Some(jobId)
              && next.days[key].content.segments ==
                 ReadBack(KeepReferences(db, DayFromStored(item.draft.value).content)).segments
            else
              (key in db.days <==> key in next.days) && (key in db.days ==> next.days[key] == db.days[key])
  {
    hide Inv, Commit, Records, SameElsewhere, AllFine, InOrder, KeepShifts;
    CommitEffect(db, jobId, expected, actor);
    assert ItemOutcome(db, Commit(db, jobId, expected, actor).value, db.jobs[jobId], jobId, db.jobs[jobId].items[n],
                       actor);
  }

  lemma OutcomeKeepsJobs(db: Db, next: Db, job: ReviewJob, jobId: nat, items: seq<Item>, actor: nat)
    requires RowsRenderable(db) && jobId in db.jobs && CommitOutcome(db, next, job, jobId, items, actor)
    ensures jobId in next.jobs
  {
    hide ItemOutcome, Records, SameElsewhere;
    assert jobId in db.jobs.Keys;
  }

  // ----- rollback

  /** The day after its write was taken back: gone if the import made it, otherwise its old
      content under the next version. */
  ghost predicate Undone(db: Db, next: Db, key: Key, w: Revision) {
    if w.before.None? then key !in next.days
    else key in db.days && key in next.days
         && next.days[key] == Row(db.days[key].id, db.days[key].version + 1, db.days[key].createdBy,
                                  ReadBack(KeepReferences(db, DayFromStored(w.before.value).content)))
  }

  ghost predicate AllOwned(db: Db, user: nat, jobId: nat, writes: seq<Revision>) {
    forall i :: 0 <= i < |writes| ==> StillOwned(db, Key(user, writes[i].date), writes[i], jobId)
  }

  function WriteDates(writes: seq<Revision>): set<string> {
    set i | 0 <= i < |writes| :: writes[i].date
  }

  ghost predicate RollbackOutcome(db: Db, next: Db, user: nat, writes: seq<Revision>) {
    (forall i :: 0 <= i < |writes| ==> Undone(db, next, Key(user, writes[i].date), writes[i]))
    && SameElsewhere(db, next, user, WriteDates(writes)) && SameReferences(db, next)
  }

  lemma RollbackItemOutcome(db: Db, user: nat, jobId: nat, w: Revision, actor: nat)
    requires RowsRenderable(db)
    ensures RollbackItem(db, user, jobId, w, actor).Ok? <==> StillOwned(db, Key(user, w.date), w, jobId)
    ensures RollbackItem(db, user, jobId, w, actor).Ok? ==>
              var next := RollbackItem(db, user, jobId, w, actor).value;
              Undone(db, next, Key(user, w.date), w) && SameElsewhere(db, next, user, {w.date})
                  && SameReferences(db, next)
  {
    hide DayFromStored, ReadBack, StoredFromDay, KeepShifts;
  }

  lemma AllOwnedStep(db: Db, mid: Db, user: nat, jobId: nat, writes: seq<Revision>)
    requires |writes| > 0 && OnePerDate(writes, RevisionDate) && SameElsewhere(db, mid, user, {writes[0].date})
    ensures AllOwned(db, user, jobId, writes) <==>
            StillOwned(db, Key(user, writes[0].date), writes[0], jobId) && AllOwned(mid, user, jobId, writes[1..])
  {
    var rest := writes[1..];
    forall i | 0 <= i < |rest|
      ensures rest[i] == writes[i + 1]
      ensures StillOwned(db, Key(user, rest[i].date), rest[i], jobId) <==>
              StillOwned(mid, Key(user, rest[i].date), rest[i], jobId)
    {
      assert RevisionDate(writes[0]) != RevisionDate(writes[i + 1]);
      assert SameAt(db, mid, Key(user, rest[i].date));
    }
    assert forall i :: 0 < i < |writes| ==> writes[i] == rest[i - 1];
  }

  lemma UndoneLater(db: Db, mid: Db, next: Db, key: Key, w: Revision)
    requires SameAt(db, mid, key) && SameReferences(db, mid) && Undone(mid, next, key, w)
    ensures Undone(db, next, key, w)
  {
    if w.before.Some? {
      SameReferencesKept(db, mid, DayFromStored(w.before.value).content);
    }
  }

  lemma RollbackStep(db: Db, mid: Db, next: Db, user: nat, jobId: nat, writes: seq<Revision>, actor: nat)
    requires RowsRenderable(db) && |writes| > 0 && OnePerDate(writes, RevisionDate)
    requires RollbackItem(db, user, jobId, writes[0], actor) == Ok(mid)
    requires RollbackOutcome(mid, next, user, writes[1..])
    ensures RollbackOutcome(db, next, user, writes)
  {
    hide RollbackItem, ReadBack, KeepReferences, DayFromStored;
    var rest := writes[1..];
    RollbackItemOutcome(db, user, jobId, writes[0], actor);
    forall i | 0 <= i < |rest| ensures rest[i].date != writes[0].date {
      assert RevisionDate(writes[0]) != RevisionDate(writes[i + 1]);
    }
    assert writes[0].date !in WriteDates(rest);
    assert WriteDates(writes) == {writes[0].date} + WriteDates(rest);
    forall i | 0 <= i < |writes| ensures Undone(db, next, Key(user, writes[i].date), writes[i]) {
      if i == 0 {
        assert SameAt(mid, next, Key(user, writes[0].date));
      } else {
        assert writes[i] == rest[i - 1];
        assert SameAt(db, mid, Key(user, writes[i].date));
        UndoneLater(db, mid, next, Key(user, writes[i].date), writes[i]);
      }
    }
    forall key: Key | !(key.user == user && key.date in WriteDates(writes)) ensures SameAt(db, next, key) {
      assert SameAt(db, mid, key) && SameAt(mid, next, key);
    }
  }

  lemma {:induction false} RollbackAllOutcome(db: Db, user: nat, jobId: nat, writes: seq<Revision>, actor: nat)
    requires RowsRenderable(db) && OnePerDate(writes, RevisionDate)
    ensures RollbackAll(db, user, jobId, writes, actor).Ok? <==> AllOwned(db, user, jobId, writes)
    ensures RollbackAll(db, user, jobId, writes, actor).Ok? ==>
              RollbackOutcome(db, RollbackAll(db, user, jobId, writes, actor).value, user, writes)
    decreases |writes|
  {
    if writes != [] {
      hide RollbackItem, SameElsewhere, RollbackOutcome, StillOwned;
      RollbackItemOutcome(db, user, jobId, writes[0], actor);
      if RollbackItem(db, user, jobId, writes[0], actor).Ok? {
        var mid := RollbackItem(db, user, jobId, writes[0], actor).value;
        RollbackItemKeepsRenderable(db, user, jobId, writes[0], actor);
        assert forall i, j :: 0 <= i < j < |writes[1..]| ==>
                                writes[1..][i] == writes[i + 1] && writes[1..][j] == writes[j + 1];
        RollbackAllOutcome(mid, user, jobId, writes[1..], actor);
        AllOwnedStep(db, mid, user, jobId, writes);
        if RollbackAll(mid, user, jobId, writes[1..], actor).Ok? {
          RollbackStep(db, mid, RollbackAll(mid, user, jobId, writes[1..], actor).value, user, jobId, writes, actor);
        }
      }
    }
  }

  ghost predicate WriteOf(db: Db, jobId: nat, r: Revision) {
    r in db.revisions && r.job == Some(jobId) && IsImportWrite(r)
  }

  /** The version alone tells: a row at the version an import gave it holds that import's
      content, so the source test of the rollback never adds anything. */
  lemma VersionTellsOwner(db: Db, jobId: nat, r: Revision)
    requires Inv(db) && jobId in db.jobs && db.jobs[jobId].state == Completed && WriteOf(db, jobId, r)
    ensures WriteKey(r) in db.days && r.dayId == Some(db.days[WriteKey(r)].id) && r.after.Some?
    ensures StillOwned(db, WriteKey(r), r, jobId) <==> r.afterVersion == Some(db.days[WriteKey(r)].version)
    ensures StillOwned(db, WriteKey(r), r, jobId) ==>
              db.days[WriteKey(r)].content == DayFromStored(r.after.value).content
  {
    hide DayFromStored;
    var i :| 0 <= i < |db.revisions| && db.revisions[i] == r;
    assert WriteOk(db, States(db), r);
  }

  ghost predicate WrittenBy(db: Db, jobId: nat, key: Key) {
    exists r :: WriteOf(db, jobId, r) && WriteKey(r) == key
  }

  ghost predicate UntouchedSince(db: Db, jobId: nat) {
    forall r :: WriteOf(db, jobId, r) ==>
      WriteKey(r) in db.days && r.afterVersion == Some(db.days[WriteKey(r)].version)
  }

  /** A rollback is all or nothing: it succeeds exactly when no day the import wrote has been
      written since, and then takes every one of those writes back and touches nothing else. */
  lemma RollbackEffect(db: Db, jobId: nat, actor: nat)
    requires Inv(db) && RowsRenderable(db) && jobId in db.jobs && db.jobs[jobId].state == Completed
    ensures Rollback(db, jobId, actor).Ok? <==> UntouchedSince(db, jobId)
    ensures Rollback(db, jobId, actor).Ok? ==>
              var next := Rollback(db, jobId, actor).value;
              (forall r :: WriteOf(db, jobId, r) ==> Undone(db, next, WriteKey(r), r))
              && (forall key: Key :: !WrittenBy(db, jobId, key) ==> SameAt(db, next, key))
              && jobId in next.jobs && next.jobs[jobId].state == RolledBack
  {
    hide RollbackAll, Inv, AllOwned, RollbackOutcome, UntouchedSince, AllAttached, WritesOf, ByDate;
    var user := db.jobs[jobId].target;
    var writes := ByDate(WritesOf(db.revisions, jobId), RevisionDate);
    RollbackList(db, jobId);
    RollbackAllOutcome(db, user, jobId, writes, actor);
    RollbackOrder(db, jobId, writes);
    if RollbackAll(db, user, jobId, writes, actor).Ok? {
      var undone := RollbackAll(db, user, jobId, writes, actor).value;
      OutcomeKeepsKeys(db, undone, user, writes);
      assert jobId in db.jobs.Keys;
      OutcomeReachesEveryDay(db, undone, Rollback(db, jobId, actor).value, jobId, writes);
    }
  }

  lemma OutcomeKeepsKeys(db: Db, undone: Db, user: nat, writes: seq<Revision>)
    requires RollbackOutcome(db, undone, user, writes)
    ensures undone.jobs.Keys == db.jobs.Keys
  {
    hide SameElsewhere, Undone;
  }

  lemma OutcomeReachesEveryDay(db: Db, undone: Db, next: Db, jobId: nat, writes: seq<Revision>)
    requires jobId in db.jobs && AllAttached(db, db.jobs[jobId].target, jobId, writes)
    requires forall r :: r in writes <==> WriteOf(db, jobId, r)
    requires RollbackOutcome(db, undone, db.jobs[jobId].target, writes) && next.days == undone.days
    ensures forall r :: WriteOf(db, jobId, r) ==> Undone(db, next, WriteKey(r), r)
    ensures forall key: Key :: !WrittenBy(db, jobId, key) ==> SameAt(db, next, key)
  {
    hide WriteOf, ReadBack, KeepReferences, DayFromStored;
    var user := db.jobs[jobId].target;
    forall key: Key | !WrittenBy(db, jobId, key) ensures SameAt(db, next, key) {
      forall i | 0 <= i < |writes| ensures WriteKey(writes[i]) != key {
        assert writes[i] in writes;
      }
      assert SameAt(db, undone, key);
    }
    forall r | WriteOf(db, jobId, r) ensures Undone(db, next, WriteKey(r), r) {
      assert r in writes;
      var i :| 0 <= i < |writes| && writes[i] == r;
      assert writes[i].user == user && Undone(db, undone, Key(user, writes[i].date), writes[i]);
    }
  }

  lemma RollbackOrder(db: Db, jobId: nat, writes: seq<Revision>)
    requires Inv(db) && jobId in db.jobs && db.jobs[jobId].state == Completed
    requires AllAttached(db, db.jobs[jobId].target, jobId, writes)
    requires forall r :: r in writes <==> WriteOf(db, jobId, r)
    ensures AllOwned(db, db.jobs[jobId].target, jobId, writes) <==> UntouchedSince(db, jobId)
  {
    hide StillOwned, Inv;
    forall i | 0 <= i < |writes|
      ensures WriteKey(writes[i]) == Key(db.jobs[jobId].target, writes[i].date)
      ensures StillOwned(db, WriteKey(writes[i]), writes[i], jobId) <==>
              writes[i].afterVersion == Some(db.days[WriteKey(writes[i])].version)
    {
      assert writes[i] in writes;
      VersionTellsOwner(db, jobId, writes[i]);
    }
    forall r | WriteOf(db, jobId, r) ensures WriteKey(r) in db.days {
      VersionTellsOwner(db, jobId, r);
    }
  }

  // ----- a commit taken back at once

  /** No stored day refers to a job or a shift that is gone. */
  ghost predicate ReferencesPresent(db: Db) {
    forall k :: k in db.days ==> KeepReferences(db, db.days[k].content) == db.days[k].content
  }

  ghost predicate WrittenDate(job: ReviewJob, key: Key) {
    key.user == job.target
    && exists i :: 0 <= i < |job.items| && job.items[i].date == key.date && TakenOver(job.items[i])
  }

  /** The same day as before, its version up by two if the commit wrote it. */
  ghost predicate BackAsItWas(db: Db, final: Db, key: Key, written: bool) {
    if key in db.days then
      key in final.days
      && final.days[key] == db.days[key].(version := db.days[key].version + if written then 2 else 0)
    else key !in final.days
  }

  lemma UndoneIsBack(db: Db, mid: Db, final: Db, w: Revision)
    requires RowsOk(db) && RowsRenderable(db) && ReferencesPresent(db) && SameReferences(db, mid)
    requires Undoable(db, mid, w) && Undone(mid, final, WriteKey(w), w)
    ensures BackAsItWas(db, final, WriteKey(w), true)
  {
    var key := WriteKey(w);
    if key in db.days {
      CanonicalRoundTrip(DayOf(db.days[key]));
      SameReferencesKept(db, mid, db.days[key].content);
      ReadBackFixesCanonical(db.days[key].content);
    }
  }

  lemma NewWritesAreRecords(db: Db, mid: Db, jobId: nat, r: Revision)
    requires Inv(db) && RowsRenderable(db) && jobId in db.jobs && db.jobs[jobId].state == NeedsReview
    requires Records(db, mid, db.jobs[jobId].target, jobId, Dates(db.jobs[jobId].items)) && WriteOf(mid, jobId, r)
    ensures Record(db, mid, db.jobs[jobId].target, jobId, Dates(db.jobs[jobId].items), r)
  {
    CompletingEmptyJob(db, jobId);
    var i :| 0 <= i < |mid.revisions| && mid.revisions[i] == r;
    assert forall k :: 0 <= k < |db.revisions| ==>
           mid.revisions[k] == mid.revisions[..|db.revisions|][k] == db.revisions[k];
  }

  /** A record exists only for a date the commit wrote. */
  lemma RecordIsOfWrittenDate(db: Db, mid: Db, job: ReviewJob, jobId: nat, w: Revision, actor: nat)
    requires RowsRenderable(db) && CommitOutcome(db, mid, job, jobId, job.items, actor)
    requires Record(db, mid, job.target, jobId, Dates(job.items), w)
    ensures WrittenDate(job, WriteKey(w))
  {
    hide StoredFromDay, Imported;
    var i :| 0 <= i < |job.items| && job.items[i].date == w.date;
    assert ItemOutcome(db, mid, job, jobId, job.items[i], actor);
  }

  lemma RecordIsWrite(db: Db, mid: Db, w: Revision)
    requires RowsRenderable(db) && Undoable(db, mid, w)
    ensures IsImportWrite(w)
  {
    hide StoredFromDay, StillOwnedBy;
  }

  lemma BackAtWritten(db: Db, mid: Db, final: Db, jobId: nat, key: Key, actor: nat)
    requires Inv(db) && RowsRenderable(db) && ReferencesPresent(db) && jobId in db.jobs
             && db.jobs[jobId].state == NeedsReview
    requires CommitOutcome(db, mid, db.jobs[jobId], jobId, db.jobs[jobId].items, actor)
    requires forall r :: WriteOf(mid, jobId, r) ==> Undone(mid, final, WriteKey(r), r)
    requires WrittenDate(db.jobs[jobId], key)
    ensures BackAsItWas(db, final, key, true)
  {
    hide ItemOutcome, Undone, Undoable, BackAsItWas;
    var job := db.jobs[jobId];
    var i :| 0 <= i < |job.items| && job.items[i].date == key.date && TakenOver(job.items[i]);
    assert Recorded(db, mid, key);
    var k :| |db.revisions| <= k < |mid.revisions| && WriteKey(mid.revisions[k]) == key;
    var w := mid.revisions[k];
    assert Record(db, mid, job.target, jobId, Dates(job.items), w);
    RecordIsWrite(db, mid, w);
    assert WriteOf(mid, jobId, w);
    UndoneIsBack(db, mid, final, w);
  }

  /** A commit followed at once by its rollback always succeeds and leaves every day as it
      was: created days are gone, changed days hold their old content under a version two
      higher, and all other days are untouched. */
  lemma CommitThenRollback(db: Db, jobId: nat, expected: nat, actor: nat, undoer: nat)
    requires Inv(db) && RowsRenderable(db) && ReferencesPresent(db)
    requires jobId in db.jobs && db.jobs[jobId].state == NeedsReview && Commit(db, jobId, expected, actor).Ok?
    ensures RowsRenderable(Commit(db, jobId, expected, actor).value)
    ensures var undone := Rollback(Commit(db, jobId, expected, actor).value, jobId, undoer);
            undone.Ok? && forall key: Key :: BackAsItWas(db, undone.value, key, WrittenDate(db.jobs[jobId], key))
  {
    hide Commit, Rollback, Inv, BackAsItWas, Undone;
    var job := db.jobs[jobId];
    var mid := Commit(db, jobId, expected, actor).value;
    CommitKeepsInv(db, jobId, expected, actor);
    InvRenderable(mid);
    CommitEffect(db, jobId, expected, actor);
    forall r | WriteOf(mid, jobId, r)
      ensures Record(db, mid, job.target, jobId, Dates(job.items), r) && WrittenDate(job, WriteKey(r))
    {
      NewWritesAreRecords(db, mid, jobId, r);
      RecordIsOfWrittenDate(db, mid, job, jobId, r, actor);
    }
    RollbackEffect(mid, jobId, undoer);
    var final := Rollback(mid, jobId, undoer).value;
    forall key: Key ensures BackAsItWas(db, final, key, WrittenDate(job, key)) {
      if WrittenDate(job, key) {
        BackAtWritten(db, mid, final, jobId, key, actor);
      } else {
        assert SameAt(mid, final, key);
        BackAtOthers(db, mid, final, jobId, key, actor);
      }
    }
  }

  lemma BackAtOthers(db: Db, mid: Db, final: Db, jobId: nat, key: Key, actor: nat)
    requires RowsRenderable(db) && jobId in db.jobs
    requires CommitOutcome(db, mid, db.jobs[jobId], jobId, db.jobs[jobId].items, actor)
    requires SameAt(mid, final, key) && !WrittenDate(db.jobs[jobId], key)
    ensures BackAsItWas(db, final, key, false)
  {
    var job := db.jobs[jobId];
    if key.user == job.target && key.date in Dates(job.items) {
      var i :| 0 <= i < |job.items| && job.items[i].date == key.date;
      assert ItemOutcome(db, mid, job, jobId, job.items[i], actor);
    } else {
      assert SameAt(db, mid, key);
    }
  }

  lemma InvRenderable(db: Db)
    requires Inv(db)
    ensures RowsRenderable(db)
  {
    RenderableRows(db);
  }

  /** The after-snapshot names the committing user as creator, the row keeps its own: the two
      agree exactly when the commit made the row or its user had made it before. */
  lemma SnapshotCreatorAgrees(db: Db, job: ReviewJob, jobId: nat, item: Item, actor: nat)
    requires RowsOk(db) && RowsRenderable(db) && TakenOver(item) && CommitItem(db, job, jobId, item, actor).Ok?
    ensures var key := Key(job.target, item.date);
            var next := CommitItem(db, job, jobId, item, actor).value;
            key in next.days && |next.revisions| == |db.revisions| + 1 && next.revisions[|db.revisions|].after.Some?
            && (DayFromStored(next.revisions[|db.revisions|].after.value) == DayOf(next.days[key]) <==>
                key !in db.days || db.days[key].createdBy == actor)
  {
    hide DayError, DayFromStored, ReadBack, KeepReferences;
    var key := Key(job.target, item.date);
    var change := if key in db.days then ImportUpdate else ImportCreate;
    AfterSnapshotIsRow(db, key, ImportedDay(job, jobId, item, actor), change, Some(jobId), actor);
  }

  // ----- manual writers

  /** The row a manual write leaves: the content as the tables return it, one version on. */
  ghost predicate RowWritten(db: Db, next: Db, key: Key, day: Day) {
    key in next.days && next.days[key].content == ReadBack(KeepReferences(db, day.content))
    && if key in db.days then
         next.days[key].id == db.days[key].id && next.days[key].version == db.days[key].version + 1
         && next.days[key].createdBy == db.days[key].createdBy
       else next.days[key].id >= db.nextRow && next.days[key].version == 1 && next.days[key].createdBy == day.createdBy
  }

  lemma PutOutcome(db: Db, key: Key, day: Day, change: Change, job: Option<nat>, actor: nat)
    requires RowsRenderable(db) && StartsHaveEnds(day.content.segments)
    ensures var next := Put(db, key, day, change, job, actor);
            RowWritten(db, next, key, day) && SameElsewhere(db, next, key.user, {key.date}) && SameReferences(db, next)
            && next.nextRow >= db.nextRow
  {
    hide ReadBack, KeepReferences, StoredFromDay;
  }

  /** A manual save goes through exactly for a valid day of known shifts whose client names the
      version it changes, 0 for a day that is not there; it writes that day and no other. */
  lemma SaveEffect(db: Db, key: Key, status: Status, note: string, segments: seq<Segment>, version: nat, actor: nat)
    requires RowsRenderable(db)
    ensures Save(db, key, status, note, segments, version, actor).Ok? <==>
            DayError(key.date, status, segments).None?
            && (forall i :: 0 <= i < |segments| && segments[i].shiftId.Some? ==> segments[i].shiftId.value in db.shifts)
            && version == (if key in db.days then db.days[key].version else 0) && (key in db.days ==> version != 0)
    ensures Save(db, key, status, note, segments, version, actor).Ok? ==>
              var next := Save(db, key, status, note, segments, version, actor).value;
              RowWritten(db, next, key, Day(Content(status, Manual, None, TrimSpace(note), segments), actor))
              && SameElsewhere(db, next, key.user, {key.date})
  {
    hide DayError, Put, RowWritten, TrimSpace;
    if Save(db, key, status, note, segments, version, actor).Ok? {
      ValidDayRenderable(key.date, status, segments);
      PutOutcome(db, key, Day(Content(status, Manual, None, TrimSpace(note), segments), actor),
                 if key in db.days then ManualUpdate else ManualCreate, None, actor);
    }
  }

  ghost predicate DatesOnce(dates: seq<string>) {
    forall i, j :: 0 <= i < j < |dates| ==> dates[i] != dates[j]
  }

  function DateSet(dates: seq<string>): set<string> {
    set i | 0 <= i < |dates| :: dates[i]
  }

  lemma LaterWrite(db: Db, mid: Db, next: Db, key: Key, day: Day)
    requires SameAt(db, mid, key) && SameReferences(db, mid) && db.nextRow <= mid.nextRow
             && RowWritten(mid, next, key, day)
    ensures RowWritten(db, next, key, day)
  {
    hide ReadBack;
    SameReferencesKept(db, mid, day.content);
  }

  ghost predicate AllWritten(db: Db, next: Db, user: nat, dates: seq<string>, day: Day) {
    (forall i :: 0 <= i < |dates| ==> RowWritten(db, next, Key(user, dates[i]), day))
    && SameElsewhere(db, next, user, DateSet(dates)) && SameReferences(db, next) && next.nextRow >= db.nextRow
  }

  lemma DatesSplit(dates: seq<string>)
    requires |dates| > 0
    ensures DateSet(dates) == {dates[0]} + DateSet(dates[1..])
    ensures DatesOnce(dates) ==> dates[0] !in DateSet(dates[1..]) && DatesOnce(dates[1..])
  {
    forall d | d in DateSet(dates) ensures d == dates[0] || d in DateSet(dates[1..]) {
      var i :| 0 <= i < |dates| && dates[i] == d;
      assert i > 0 ==> dates[1..][i - 1] == d;
    }
  }

  /** One day written, then the rest of the dates. */
  lemma AllWrittenStep(db: Db, mid: Db, next: Db, user: nat, dates: seq<string>, day: Day)
    requires |dates| > 0 && DatesOnce(dates) && AllWritten(mid, next, user, dates[1..], day)
    requires RowWritten(db, mid, Key(user, dates[0]), day) && SameElsewhere(db, mid, user, {dates[0]})
    requires SameReferences(db, mid) && mid.nextRow >= db.nextRow
    ensures AllWritten(db, next, user, dates, day)
  {
    hide RowWritten;
    var key, rest := Key(user, dates[0]), dates[1..];
    DatesSplit(dates);
    assert SameAt(mid, next, key);
    WriteStays(db, mid, next, key, day);
    forall i | 1 <= i < |dates| ensures RowWritten(db, next, Key(user, dates[i]), day) {
      assert dates[i] == rest[i - 1] && SameAt(db, mid, Key(user, dates[i]));
      LaterWrite(db, mid, next, Key(user, dates[i]), day);
    }
    forall k: Key | !(k.user == user && k.date in DateSet(dates)) ensures SameAt(db, next, k) {
      assert SameAt(db, mid, k) && SameAt(mid, next, k);
    }
  }

  lemma {:induction false} PutAllOutcome(db: Db, user: nat, dates: seq<string>, day: Day, actor: nat)
    requires RowsRenderable(db) && StartsHaveEnds(day.content.segments) && DatesOnce(dates)
    ensures AllWritten(db, PutAll(db, user, dates, day, actor), user, dates, day)
    decreases |dates|
  {
    if dates != [] {
      hide Put, RowWritten, SameElsewhere, SameReferences, AllWritten, DatesOnce;
      var key := Key(user, dates[0]);
      var change := if key in db.days then BatchUpdate else BatchCreate;
      DatesSplit(dates);
      PutKeepsRenderable(db, key, day, change, None, actor);
      PutOutcome(db, key, day, change, None, actor);
      var mid := Put(db, key, day, change, None, actor);
      PutAllOutcome(mid, user, dates[1..], day, actor);
      AllWrittenStep(db, mid, PutAll(mid, user, dates[1..], day, actor), user, dates, day);
    }
  }

  lemma WriteStays(db: Db, mid: Db, next: Db, key: Key, day: Day)
    requires RowWritten(db, mid, key, day) && SameAt(mid, next, key)
    ensures RowWritten(db, next, key, day)
  {
  }

  /** No date has an error exactly when the dates are distinct and each makes a valid day. */
  lemma FineDatesMeaning(dates: seq<string>, status: Status, segments: seq<Segment>)
    ensures BatchError(dates, |dates|, status, segments).None? <==>
            DatesOnce(dates) && forall i :: 0 <= i < |dates| ==> DayError(dates[i], status, segments).None?
  {
    BatchErrorMeaning(dates, |dates|, status, segments);
    if BatchError(dates, |dates|, status, segments).None? {
      forall i, j | 0 <= i < j < |dates| ensures dates[i] != dates[j] {
        assert DateError(dates, j, status, segments).None? && dates[..j][i] == dates[i];
      }
      forall i | 0 <= i < |dates| ensures DayError(dates[i], status, segments).None? {
        assert DateError(dates, i, status, segments).None?;
      }
    }
  }

  /** The k-th date is the first that is not fine: an unreadable or repeated date comes before
      the day it would make. */
  ghost predicate FirstDateFault(dates: seq<string>, k: nat, status: Status, segments: seq<Segment>, error: LedgerError)
    requires k < |dates|
  {
    (forall m :: 0 <= m < k ==>
       ParseDate(dates[m]).Some? && dates[m] !in dates[..m] && DayError(dates[m], status, segments).None?)
    && if ParseDate(dates[k]).None? || dates[k] in dates[..k] then error == InvalidBatchDate
       else
         DayError(dates[k], status, segments).Some?
         && error == InvalidSchedule(DayError(dates[k], status, segments).value)
  }

  lemma FaultByFields(dates: seq<string>, k: nat, status: Status, segments: seq<Segment>, error: LedgerError)
    requires k < |dates| && DateError(dates, k, status, segments) == Some(error)
    requires forall m :: 0 <= m < k ==> DateError(dates, m, status, segments).None?
    ensures FirstDateFault(dates, k, status, segments, error) && error != InvalidBatch
  {
    hide DayError, ParseDate;
    forall m | 0 <= m < k
      ensures ParseDate(dates[m]).Some? && dates[m] !in dates[..m] && DayError(dates[m], status, segments).None?
    {
      assert DateError(dates, m, status, segments).None?;
    }
  }

  /** A batch is all or nothing: for 1 to 366 distinct valid dates it writes the same day on
      each of them, without asking for versions, and nothing elsewhere. A batch of another size
      is refused as such, and otherwise the first bad date decides the error. */
  lemma BatchEffect(db: Db, user: nat, dates: seq<string>, status: Status, note: string, segments: seq<Segment>,
      actor: nat)
    requires RowsRenderable(db)
    ensures var r := Batch(db, user, dates, status, note, segments, actor);
            (r.Ok? <==> 0 < |dates| <= 366 && DatesOnce(dates)
                        && forall i :: 0 <= i < |dates| ==> DayError(dates[i], status, segments).None?)
            && (r == Err(InvalidBatch) <==> !(0 < |dates| <= 366))
            && (r.Err? && r.error != InvalidBatch ==>
                  exists k :: 0 <= k < |dates| && FirstDateFault(dates, k, status, segments, r.error))
    ensures Batch(db, user, dates, status, note, segments, actor).Ok? ==>
              AllWritten(db, Batch(db, user, dates, status, note, segments, actor).value, user, dates,
                         Day(Content(status, Manual, None, note, segments), actor))
  {
    hide DayError, PutAll, RowWritten, BatchError, DateError, FirstDateFault;
    FineDatesMeaning(dates, status, segments);
    BatchErrorMeaning(dates, |dates|, status, segments);
    if BatchError(dates, |dates|, status, segments).Some? {
      var error := BatchError(dates, |dates|, status, segments);
      var k: nat :| k < |dates| && DateError(dates, k, status, segments) == error
                    && forall m :: 0 <= m < k ==> DateError(dates, m, status, segments).None?;
      FaultByFields(dates, k, status, segments, error.value);
    }
    if Batch(db, user, dates, status, note, segments, actor).Ok? {
      FineDatesRenderable(dates, status, segments);
      PutAllOutcome(db, user, dates, Day(Content(status, Manual, None, note, segments), actor), actor);
    }
  }
}
