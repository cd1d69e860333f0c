/** What a preview is, whichever way it was made: one item for every date of the period, and
    counts that agree with the items. */
module Preview {
  import opened Common
  import opened Calendar
  import opened ScheduleDomain
  import opened Snapshots
  import opened Review

  datatype PreviewResult = PreviewResult(items: seq<Item>, itemCount: nat, conflictCount: nat, invalidCount: nat)

  function CountKinds(items: seq<Item>, kinds: set<ItemType>): nat {
    if items == [] then 0
    else CountKinds(items[..|items| - 1], kinds) + if items[|items| - 1].kind in kinds then 1 else 0
  }

  lemma CountOneMore(items: seq<Item>, item: Item, kinds: set<ItemType>)
    ensures CountKinds(items + [item], kinds) == CountKinds(items, kinds) + if item.kind in kinds then 1 else 0
  {
    assert (items + [item])[..|items|] == items;
  }

  /** A period a preview can cover: two dates in order, at most 366 days. */
  ghost predicate PeriodFits(start: string, end: string) {
    ParseDate(start).Some? && ParseDate(end).Some? && !LexLess(end, start)
    && DayNumber(ParseDate(end).value) - DayNumber(ParseDate(start).value) + 1 <= 366
  }

  /** The items of a preview lie on the dates of the period in order, one each. */
  ghost predicate CoversPeriod(items: seq<Item>, start: string, end: string) {
    ParseDate(start).Some? && ParseDate(end).Some?
    && |items| == DayNumber(ParseDate(end).value) - DayNumber(ParseDate(start).value) + 1
    && forall i {:trigger items[i]} :: 0 <= i < |items| ==> IsDay(items[i].date, DayNumber(ParseDate(start).value) + i)
  }

  ghost predicate CountsAgree(r: PreviewResult) {
    r.itemCount == |r.items| && r.conflictCount == CountKinds(r.items, {Conflict})
    && r.invalidCount == CountKinds(r.items, {Invalid, Uncertain})
  }

  lemma CoveringIsOnePerDate(items: seq<Item>, start: string, end: string)
    requires CoversPeriod(items, start, end)
    ensures OneItemPerDate(items)
  {
    forall i, j | 0 <= i < j < |items| ensures items[i].date != items[j].date {
      assert IsDay(items[i].date, DayNumber(ParseDate(start).value) + i);
      assert IsDay(items[j].date, DayNumber(ParseDate(start).value) + j);
    }
  }

  /** The types a commit may write from. */
  predicate TrustedKind(kind: ItemType) {
    kind == New || kind == Same || kind == Conflict
  }

  /** The verdict the commit will reach when it rebuilds the draft of a preview item. */
  ghost function CommitVerdict(item: Item): Option<ScheduleError>
    requires item.draft.Some?
  {
    var content := DayFromStored(item.draft.value).content;
    DayError(item.date, content.status, content.segments)
  }
}
