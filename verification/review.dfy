/** The review side of an import job: its preview items, the decisions taken on them, and
    the version every edit must name. */
module Review {
  import opened Common
  import opened ScheduleDomain
  import opened Snapshots

  datatype JobState =
    | Uploaded | Pending | Parsing | NeedsReview | Completed | Failed | Cancelled | RolledBack

  datatype ItemType = New | Same | Conflict | Invalid | Uncertain | Missing
  datatype Decision = KeepExisting | UseImported | Skip

  /** One preview row with the schedule row and version the preview was computed against. */
  datatype Item = Item(
    id: nat, date: string, kind: ItemType, draft: Option<StoredSchedule>,
    anchorId: Option<nat>, anchorVersion: Option<nat>, decision: Option<Decision>)

  datatype ReviewJob = ReviewJob(
    state: JobState, target: nat, source: SourceType, reviewVersion: nat, items: seq<Item>)

  datatype ReviewError =
    | NotReviewable | StaleReview | InvalidImportItem

  /** The unique index on (import_job_id, work_date). */
  ghost predicate OneItemPerDate(items: seq<Item>) {
    forall i, j :: 0 <= i < j < |items| ==> items[i].date != items[j].date
  }

  /** requireReviewVersion. */
  predicate NamesVersion(job: ReviewJob, expected: nat) {
    expected != 0 && expected == job.reviewVersion
  }

  predicate Decidable(item: Item, decision: Decision) {
    item.kind in {Conflict, New} || decision == Skip
  }

  /** The UPDATE of one decision; None when it does not affect exactly one row. */
  function Decide(items: seq<Item>, id: nat, decision: Decision): Option<seq<Item>> {
    if items == [] then None
    else if items[0].id == id then
      if Decidable(items[0], decision) then Some([items[0].(decision := Some(decision))] + items[1..]) else None
    else match Decide(items[1..], id, decision)
      case None => None
      case Some(rest) => Some([items[0]] + rest)
  }

  function DecideAll(items: seq<Item>, decisions: seq<(nat, Decision)>): Option<seq<Item>>
    decreases |decisions|
  {
    if decisions == [] then Some(items)
    else match Decide(items, decisions[0].0, decisions[0].1)
      case None => None
      case Some(next) => DecideAll(next, decisions[1..])
  }

  /** updateImportDecisions: all decisions are stored, and the version moves on, or nothing
      happens. */
  function UpdateDecisions(job: ReviewJob, expected: nat, decisions: seq<(nat, Decision)>)
    : Result<ReviewJob, ReviewError>
  {
    if job.state != NeedsReview then Err(NotReviewable)
    else if !NamesVersion(job, expected) then Err(StaleReview)
    else match DecideAll(job.items, decisions)
      case None => Err(InvalidImportItem)
      case Some(items) => Ok(job.(items := items, reviewVersion := job.reviewVersion + 1))
  }

  predicate HasItem(items: seq<Item>, id: nat) {
    exists i :: 0 <= i < |items| && items[i].id == id
  }

  /** The schedule row a correction is checked against. */
  datatype Existing = Existing(id: nat, version: nat, snapshot: StoredSchedule)

  function Classify(draft: StoredSchedule, existing: Option<Existing>): ItemType {
    if existing.None? then New
    else if SchedulesEquivalent(draft, existing.value.snapshot) then Same
    else Conflict
  }

  function Reanchor(item: Item, draft: StoredSchedule, existing: Option<Existing>): Item {
    item.(kind := Classify(draft, existing), draft := Some(draft),
          anchorId := if existing.Some? then Some(existing.value.id) else None,
          anchorVersion := if existing.Some? then Some(existing.value.version) else None,
          decision := None)
  }

  function CorrectItems(items: seq<Item>, id: nat, draft: StoredSchedule, existing: Option<Existing>): seq<Item> {
    if items == [] then []
    else [if items[0].id == id then Reanchor(items[0], draft, existing) else items[0]]
         + CorrectItems(items[1..], id, draft, existing)
  }

  /** correctImportItem, once the request has become a validated draft. */
  function Correct(job: ReviewJob, expected: nat, id: nat, draft: StoredSchedule, existing: Option<Existing>)
    : Result<ReviewJob, ReviewError>
  {
    if job.state != NeedsReview then Err(NotReviewable)
    else if !NamesVersion(job, expected) then Err(StaleReview)
    else if !HasItem(job.items, id) then Err(InvalidImportItem)
    else Ok(job.(items := CorrectItems(job.items, id, draft, existing), reviewVersion := job.reviewVersion + 1))
  }

  /** A schedule row was deleted: ON DELETE SET NULL. */
  function Unanchor(items: seq<Item>, rowId: nat): (r: seq<Item>)
    ensures |r| == |items|
    ensures forall i :: 0 <= i < |r| ==>
              r[i] == if items[i].anchorId == Some(rowId) then items[i].(anchorId := None) else items[i]
  {
    if items == [] then []
    else Unanchor(items[..|items| - 1], rowId)
         + [var last := items[|items| - 1]; if last.anchorId == Some(rowId) then last.(anchorId := None) else last]
  }

  /** The same items, save anchors whose schedule row was deleted. */
  ghost predicate SameButAnchors(a: seq<Item>, b: seq<Item>) {
    |a| == |b| && forall i :: 0 <= i < |a| ==> b[i] == a[i] || b[i] == a[i].(anchorId := None)
  }

  // ----- edits keep the dates

  lemma {:induction false} DecideKeepsDates(items: seq<Item>, id: nat, decision: Decision)
    requires Decide(items, id, decision).Some?
    ensures var r := Decide(items, id, decision).value;
            |r| == |items| && forall i :: 0 <= i < |r| ==> r[i].date == items[i].date && r[i].id == items[i].id
  {
    if items[0].id != id {
      DecideKeepsDates(items[1..], id, decision);
    }
  }

  lemma {:induction false} DecideAllKeepsDates(items: seq<Item>, decisions: seq<(nat, Decision)>)
    requires DecideAll(items, decisions).Some?
    ensures var r := DecideAll(items, decisions).value;
            |r| == |items| && forall i :: 0 <= i < |r| ==> r[i].date == items[i].date && r[i].id == items[i].id
    decreases |decisions|
  {
    if decisions != [] {
      DecideKeepsDates(items, decisions[0].0, decisions[0].1);
      DecideAllKeepsDates(Decide(items, decisions[0].0, decisions[0].1).value, decisions[1..]);
    }
  }

  lemma {:induction false} CorrectKeepsDates(items: seq<Item>, id: nat, draft: StoredSchedule,
      existing: Option<Existing>)
    ensures var r := CorrectItems(items, id, draft, existing);
            |r| == |items| && forall i :: 0 <= i < |r| ==> r[i].date == items[i].date && r[i].id == items[i].id
  {
    if items != [] {
      CorrectKeepsDates(items[1..], id, draft, existing);
    }
  }

  // ----- what a batch of decisions means

  ghost predicate IdsUnique(items: seq<Item>) {
    forall i, j :: 0 <= i < j < |items| ==> items[i].id != items[j].id
  }

  /** Some item carries the id and accepts the decision. */
  ghost predicate Acceptable(items: seq<Item>, id: nat, decision: Decision) {
    exists i :: 0 <= i < |items| && items[i].id == id && Decidable(items[i], decision)
  }

  /** The last decision naming the item, or the one it had. */
  function LastDecision(decisions: seq<(nat, Decision)>, item: Item): Option<Decision> {
    if decisions == [] then item.decision
    else if decisions[|decisions| - 1].0 == item.id then Some(decisions[|decisions| - 1].1)
    else LastDecision(decisions[..|decisions| - 1], item)
  }

  lemma NothingAcceptable(id: nat, decision: Decision)
    ensures !Acceptable([], id, decision)
  {
  }

  lemma AcceptableFirst(items: seq<Item>, id: nat, decision: Decision)
    requires IdsUnique(items) && items != []
    ensures Acceptable(items, id, decision) <==>
            if items[0].id == id then Decidable(items[0], decision) else Acceptable(items[1..], id, decision)
  {
    hide Decidable;
    assert forall i :: 0 < i < |items| ==> items[i] == items[1..][i - 1];
  }

  lemma {:induction false} DecideMeaning(items: seq<Item>, id: nat, decision: Decision)
    requires IdsUnique(items)
    ensures Decide(items, id, decision).Some? <==> Acceptable(items, id, decision)
    ensures Decide(items, id, decision).Some? ==>
              var r := Decide(items, id, decision).value;
              |r| == |items|
              && forall i :: 0 <= i < |r| ==>
                   r[i] == if items[i].id == id then items[i].(decision := Some(decision)) else items[i]
  {
    hide Decidable, Acceptable;
    if items == [] {
      NothingAcceptable(id, decision);
    } else {
      AcceptableFirst(items, id, decision);
      if items[0].id != id {
        DecideMeaning(items[1..], id, decision);
      }
    }
  }

  function WithDecision(item: Item, d: (nat, Decision)): Item {
    if item.id == d.0 then item.(decision := Some(d.1)) else item
  }

  lemma {:induction false} LastDecisionFromFront(decisions: seq<(nat, Decision)>, item: Item)
    requires |decisions| > 0
    ensures LastDecision(decisions, item) == LastDecision(decisions[1..], WithDecision(item, decisions[0]))
  {
    var rest := decisions[1..];
    if |decisions| > 1 && decisions[|decisions| - 1].0 != item.id {
      assert decisions[..|decisions| - 1][1..] == rest[..|rest| - 1];
      LastDecisionFromFront(decisions[..|decisions| - 1], item);
    }
  }

  /** A batch of decisions is stored exactly when every one of them names an item that accepts
      it; then each item has the last decision naming it and is otherwise as it was. */
  lemma {:induction false} DecideAllMeaning(items: seq<Item>, decisions: seq<(nat, Decision)>)
    requires IdsUnique(items)
    ensures DecideAll(items, decisions).Some? <==>
            forall k :: 0 <= k < |decisions| ==> Acceptable(items, decisions[k].0, decisions[k].1)
    ensures DecideAll(items, decisions).Some? ==>
              var r := DecideAll(items, decisions).value;
              |r| == |items|
              && forall i :: 0 <= i < |r| ==> r[i] == items[i].(decision := LastDecision(decisions, items[i]))
    decreases |decisions|
  {
    hide Decidable, Acceptable, Decide;
    if decisions != [] {
      var id, decision, rest := decisions[0].0, decisions[0].1, decisions[1..];
      DecideMeaning(items, id, decision);
      if Decide(items, id, decision).Some? {
        var next := Decide(items, id, decision).value;
        assert forall i :: 0 <= i < |items| ==> next[i] == WithDecision(items[i], decisions[0]);
        DecideAllMeaning(next, rest);
        forall k | 0 <= k < |rest|
          ensures rest[k] == decisions[k + 1]
          ensures Acceptable(next, rest[k].0, rest[k].1) <==> Acceptable(items, rest[k].0, rest[k].1)
        {
          AcceptableStays(items, next, rest[k].0, rest[k].1);
        }
        assert forall k :: 0 < k < |decisions| ==> decisions[k] == rest[k - 1];
        forall i | 0 <= i < |items| ensures LastDecision(decisions, items[i]) == LastDecision(rest, next[i]) {
          LastDecisionFromFront(decisions, items[i]);
        }
      }
    }
  }

  lemma AcceptableStays(items: seq<Item>, next: seq<Item>, id: nat, decision: Decision)
    requires |next| == |items|
    requires forall i :: 0 <= i < |items| ==> next[i].id == items[i].id && next[i].kind == items[i].kind
    ensures Acceptable(next, id, decision) <==> Acceptable(items, id, decision)
  {
    assert forall i :: 0 <= i < |items| ==> Decidable(next[i], decision) == Decidable(items[i], decision);
  }

  /** The loop of updateImportDecisions over the rows of one job. */
  method StoreDecisions(job: ReviewJob, expected: nat, decisions: seq<(nat, Decision)>)
    returns (result: Result<ReviewJob, ReviewError>)
    ensures result == UpdateDecisions(job, expected, decisions)
  {
    if job.state != NeedsReview {
      return Err(NotReviewable);
    }
    if expected == 0 || expected != job.reviewVersion {
      return Err(StaleReview);
    }
    var items := job.items;
    for k := 0 to |decisions|
      invariant DecideAll(items, decisions[k..]) == DecideAll(job.items, decisions)
    {
      assert decisions[k..][1..] == decisions[k + 1..];
      var updated := Decide(items, decisions[k].0, decisions[k].1);
      if updated.None? {
        return Err(InvalidImportItem);
      }
      items := updated.value;
    }
    return Ok(job.(items := items, reviewVersion := job.reviewVersion + 1));
  }
}
