/** The snapshot form of a day, its round trip, and the comparison used by previews. */
module Snapshots {
  import opened Common
  import opened Calendar
  import opened Text
  import opened ScheduleDomain

  datatype SourceType = NoSource | Manual | Xlsx | Xls | ImageAI | TextAI

  /** What the schedule tables hold about one day, apart from identity and version. */
  datatype Content = Content(
    status: Status, sourceType: SourceType, sourceImportId: Option<nat>, note: string, segments: seq<Segment>)

  datatype Day = Day(content: Content, createdBy: nat)

  datatype StoredSegment = StoredSegment(
    kind: SegmentType, shiftId: Option<nat>, shiftName: string, shiftCode: string,
    startTime: string, endTime: string, crossDay: bool, displayColor: string,
    sortOrder: int, originalLabel: string)

  datatype StoredSchedule = StoredSchedule(
    status: Status, sourceType: SourceType, sourceImportId: Option<nat>, note: string, createdBy: nat,
    segments: seq<StoredSegment>)

  /** A start without an end would be dereferenced as nil by every writer. */
  predicate StartHasEnd(s: Segment) {
    s.startTime.Some? ==> s.endTime.Some?
  }

  ghost predicate StartsHaveEnds(segments: seq<Segment>) {
    forall i :: 0 <= i < |segments| ==> StartHasEnd(segments[i])
  }

  // ----- stable order by sort_order

  ghost predicate Ordered(segments: seq<Segment>) {
    forall i, j :: 0 <= i < j < |segments| ==> segments[i].sortOrder <= segments[j].sortOrder
  }

  /** Behind every segment that does not come after it. */
  function Place(sorted: seq<Segment>, s: Segment): seq<Segment> {
    if sorted == [] || sorted[|sorted| - 1].sortOrder <= s.sortOrder then sorted + [s]
    else Place(sorted[..|sorted| - 1], s) + [sorted[|sorted| - 1]]
  }

  /** sort.SliceStable by sort order, which is also the order ORDER BY sort_order, id gives
      to rows inserted in sequence. */
  function InOrder(segments: seq<Segment>): seq<Segment> {
    if segments == [] then [] else Place(InOrder(segments[..|segments| - 1]), segments[|segments| - 1])
  }

  lemma {:induction false} PlaceKeepsOrder(sorted: seq<Segment>, s: Segment)
    requires Ordered(sorted)
    ensures Ordered(Place(sorted, s))
    ensures forall x :: x in Place(sorted, s) <==> x in sorted || x == s
  {
    if !(sorted == [] || sorted[|sorted| - 1].sortOrder <= s.sortOrder) {
      var init, last := sorted[..|sorted| - 1], sorted[|sorted| - 1];
      PlaceKeepsOrder(init, s);
      var r := Place(init, s);
      assert forall x :: x in sorted <==> x in init || x == last;
      forall i | 0 <= i < |r| ensures r[i].sortOrder <= last.sortOrder {
        assert r[i] in r;
      }
    }
  }

  lemma {:induction false} InOrderIsOrdered(segments: seq<Segment>)
    ensures Ordered(InOrder(segments))
    ensures forall x :: x in InOrder(segments) <==> x in segments
  {
    if segments != [] {
      var init, last := segments[..|segments| - 1], segments[|segments| - 1];
      InOrderIsOrdered(init);
      PlaceKeepsOrder(InOrder(init), last);
      assert forall x :: x in segments <==> x in init || x == last;
    }
  }

  lemma {:induction false} PlaceAddsOne(sorted: seq<Segment>, s: Segment)
    ensures multiset(Place(sorted, s)) == multiset(sorted) + multiset{s}
  {
    if !(sorted == [] || sorted[|sorted| - 1].sortOrder <= s.sortOrder) {
      var init, last := sorted[..|sorted| - 1], sorted[|sorted| - 1];
      assert sorted == init + [last];
      PlaceAddsOne(init, s);
    }
  }

  /** Sorting loses no segment and repeats none. */
  lemma {:induction false} InOrderIsPermutation(segments: seq<Segment>)
    ensures multiset(InOrder(segments)) == multiset(segments)
  {
    if segments != [] {
      var init, last := segments[..|segments| - 1], segments[|segments| - 1];
      assert segments == init + [last];
      InOrderIsPermutation(init);
      PlaceAddsOne(InOrder(init), last);
    }
  }

  /** The segments of one sort order, in the order they come. */
  function WithOrder(segments: seq<Segment>, k: int): seq<Segment> {
    if segments == [] then []
    else
      var last := segments[|segments| - 1];
      WithOrder(segments[..|segments| - 1], k) + if last.sortOrder == k then [last] else []
  }

  lemma {:induction false} PlaceGoesLast(sorted: seq<Segment>, s: Segment, k: int)
    ensures WithOrder(Place(sorted, s), k) == WithOrder(sorted, k) + if s.sortOrder == k then [s] else []
  {
    if !(sorted == [] || sorted[|sorted| - 1].sortOrder <= s.sortOrder) {
      PlaceGoesLast(sorted[..|sorted| - 1], s, k);
    }
  }

  /** The sort is stable: segments of one sort order stay in their order. */
  lemma {:induction false} InOrderIsStable(segments: seq<Segment>, k: int)
    ensures WithOrder(InOrder(segments), k) == WithOrder(segments, k)
  {
    if segments != [] {
      var init, last := segments[..|segments| - 1], segments[|segments| - 1];
      InOrderIsStable(init, k);
      PlaceGoesLast(InOrder(init), last, k);
    }
  }

  /** sort.SliceStable by sort order, as its documentation promises it. */
  lemma InOrderSortsStably(segments: seq<Segment>)
    ensures Ordered(InOrder(segments)) && multiset(InOrder(segments)) == multiset(segments)
    ensures forall k :: WithOrder(InOrder(segments), k) == WithOrder(segments, k)
  {
    InOrderIsOrdered(segments);
    InOrderIsPermutation(segments);
    forall k ensures WithOrder(InOrder(segments), k) == WithOrder(segments, k) {
      InOrderIsStable(segments, k);
    }
  }

  lemma PlaceLast(init: seq<Segment>, last: Segment)
    requires Ordered(init + [last])
    ensures Place(init, last) == init + [last]
  {
    assert init != [] ==> (init + [last])[|init| - 1].sortOrder <= (init + [last])[|init|].sortOrder;
  }

  lemma {:induction false} InOrderFixesOrdered(segments: seq<Segment>)
    requires Ordered(segments)
    ensures InOrder(segments) == segments
  {
    if segments != [] {
      var init, last := segments[..|segments| - 1], segments[|segments| - 1];
      assert segments == init + [last];
      InOrderFixesOrdered(init);
      PlaceLast(init, last);
    }
  }

  // ----- snapshots

  function StoreSegment(s: Segment): StoredSegment
    requires StartHasEnd(s)
  {
    StoredSegment(s.kind, s.shiftId, s.shiftName, s.shiftCode,
                  if s.startTime.Some? then ClockText(s.startTime.value) else "",
                  if s.startTime.Some? then ClockText(s.endTime.value) else "",
                  s.crossDay, s.displayColor, s.sortOrder, s.originalLabel)
  }

  function StoreSegments(segments: seq<Segment>): seq<StoredSegment>
    requires forall i :: 0 <= i < |segments| ==> StartHasEnd(segments[i])
  {
    if segments == [] then []
    else StoreSegments(segments[..|segments| - 1]) + [StoreSegment(segments[|segments| - 1])]
  }

  lemma OrderKeepsEnds(segments: seq<Segment>)
    requires StartsHaveEnds(segments)
    ensures StartsHaveEnds(InOrder(segments))
  {
    InOrderIsOrdered(segments);
    forall i | 0 <= i < |InOrder(segments)| ensures StartHasEnd(InOrder(segments)[i]) {
      assert InOrder(segments)[i] in segments;
    }
  }

  /** storedFromDay. */
  function StoredFromDay(day: Day): StoredSchedule
    requires StartsHaveEnds(day.content.segments)
  {
    OrderKeepsEnds(day.content.segments);
    StoredSchedule(day.content.status, day.content.sourceType, day.content.sourceImportId, day.content.note,
                   day.createdBy, StoreSegments(InOrder(day.content.segments)))
  }

  /** ParseClock with its error thrown away. */
  function ClockOrMidnight(s: string): Clock {
    if ParseClock(s).Some? then ParseClock(s).value else 0
  }

  function RestoreSegment(s: StoredSegment): (r: Segment)
    ensures StartHasEnd(r)
  {
    Segment(0, s.kind, s.shiftId, s.shiftName, s.shiftCode,
            if s.startTime != "" then Some(ClockOrMidnight(s.startTime)) else None,
            if s.startTime != "" then Some(ClockOrMidnight(s.endTime)) else None,
            s.crossDay, s.displayColor, s.sortOrder, s.originalLabel)
  }

  function RestoreSegments(segments: seq<StoredSegment>): (r: seq<Segment>)
    ensures |r| == |segments| && StartsHaveEnds(r)
  {
    if segments == [] then []
    else RestoreSegments(segments[..|segments| - 1]) + [RestoreSegment(segments[|segments| - 1])]
  }

  /** dayFromStored. */
  function DayFromStored(s: StoredSchedule): (day: Day)
    ensures StartsHaveEnds(day.content.segments)
  {
    Day(Content(s.status, s.sourceType, s.sourceImportId, s.note, RestoreSegments(s.segments)), s.createdBy)
  }

  // ----- what a written day reads back as

  /** Row identities of segments are not part of a day's content, and an end without a
      start is not written. */
  function Plain(s: Segment): (r: Segment)
    ensures s.startTime.Some? || r.endTime.None?
  {
    s.(id := 0, endTime := if s.startTime.Some? then s.endTime else None)
  }

  function PlainAll(segments: seq<Segment>): (r: seq<Segment>)
    ensures |r| == |segments|
    ensures forall i :: 0 <= i < |r| ==> r[i] == Plain(segments[i])
  {
    if segments == [] then []
    else PlainAll(segments[..|segments| - 1]) + [Plain(segments[|segments| - 1])]
  }

  ghost predicate PlainSegment(s: Segment) {
    s.id == 0 && s.startTime.Some? == s.endTime.Some?
  }

  /** The form in which the tables return a day: segments in order, times in pairs. */
  ghost predicate Canonical(c: Content) {
    Ordered(c.segments) && forall i :: 0 <= i < |c.segments| ==> PlainSegment(c.segments[i])
  }

  function ReadBack(c: Content): Content {
    c.(segments := InOrder(PlainAll(c.segments)))
  }

  lemma ReadBackIsCanonical(c: Content)
    requires StartsHaveEnds(c.segments)
    ensures Canonical(ReadBack(c))
  {
    var plain := PlainAll(c.segments);
    InOrderIsOrdered(plain);
    forall i | 0 <= i < |ReadBack(c).segments| ensures PlainSegment(ReadBack(c).segments[i]) {
      assert ReadBack(c).segments[i] in InOrder(plain);
      var k :| 0 <= k < |plain| && plain[k] == ReadBack(c).segments[i];
      assert plain[k] == Plain(c.segments[k]) && StartHasEnd(c.segments[k]);
    }
  }

  lemma {:induction false} PlainFixesPlain(segments: seq<Segment>)
    requires forall i :: 0 <= i < |segments| ==> PlainSegment(segments[i])
    ensures PlainAll(segments) == segments
  {
    if segments != [] {
      PlainFixesPlain(segments[..|segments| - 1]);
    }
  }

  lemma ReadBackFixesCanonical(c: Content)
    requires Canonical(c)
    ensures ReadBack(c) == c && StartsHaveEnds(c.segments)
  {
    PlainFixesPlain(c.segments);
    InOrderFixesOrdered(c.segments);
  }

  /** What the tables give back of a day: everything but the segments as it was, and the
      segments sorted, each without its row identity and with an end only beside a start. */
  lemma ReadBackByFields(c: Content)
    ensures var r := ReadBack(c);
            r.status == c.status && r.sourceType == c.sourceType && r.sourceImportId == c.sourceImportId
            && r.note == c.note && multiset(r.segments) == multiset(PlainAll(c.segments))
            && forall i, j :: 0 <= i < j < |r.segments| ==> r.segments[i].sortOrder <= r.segments[j].sortOrder
    ensures |PlainAll(c.segments)| == |c.segments|
    ensures forall i :: 0 <= i < |c.segments| ==>
              var s := c.segments[i];
              PlainAll(c.segments)[i] == s.(id := 0, endTime := if s.startTime == None then None else s.endTime)
  {
    hide InOrder;
    InOrderIsOrdered(PlainAll(c.segments));
    InOrderIsPermutation(PlainAll(c.segments));
  }

  lemma {:induction false} StoredAt(segments: seq<Segment>, i: nat)
    requires i < |segments| && forall k :: 0 <= k < |segments| ==> StartHasEnd(segments[k])
    ensures |StoreSegments(segments)| == |segments| && StoreSegments(segments)[i] == StoreSegment(segments[i])
  {
    hide StoreSegment;
    var n := |segments| - 1;
    if n > 0 {
      StoredAt(segments[..n], if i < n then i else 0);
    }
  }

  /** A snapshot names every part of a day: the i-th of its segments in order, with the times
      as clock texts, empty where there is no start. */
  lemma SnapshotByFields(day: Day, i: nat)
    requires StartsHaveEnds(day.content.segments) && i < |InOrder(day.content.segments)|
    ensures var s := StoredFromDay(day);
            s.status == day.content.status && s.sourceType == day.content.sourceType
            && s.sourceImportId == day.content.sourceImportId && s.note == day.content.note
            && s.createdBy == day.createdBy && |s.segments| == |InOrder(day.content.segments)|
    ensures var stored, segment := StoredFromDay(day).segments[i], InOrder(day.content.segments)[i];
            stored.kind == segment.kind && stored.shiftId == segment.shiftId
            && stored.shiftName == segment.shiftName && stored.shiftCode == segment.shiftCode
            && stored.crossDay == segment.crossDay && stored.displayColor == segment.displayColor
            && stored.sortOrder == segment.sortOrder && stored.originalLabel == segment.originalLabel
            && if segment.startTime.Some? && segment.endTime.Some?
               then stored.startTime == ClockText(segment.startTime.value)
                    && stored.endTime == ClockText(segment.endTime.value)
               else stored.startTime == "" && stored.endTime == ""
  {
    hide InOrder, ClockText, StoreSegments;
    OrderKeepsEnds(day.content.segments);
    StoredAt(InOrder(day.content.segments), i);
  }

  // ----- the round trip

  lemma ClockTextNonEmpty(c: Clock)
    ensures ClockText(c) != "" && ClockOrMidnight(ClockText(c)) == c
  {
    ParseUndoesClockText(c);
  }

  lemma RestoreUndoesStore(s: Segment)
    requires StartHasEnd(s)
    ensures RestoreSegment(StoreSegment(s)) == Plain(s)
  {
    if s.startTime.Some? {
      ClockTextNonEmpty(s.startTime.value);
      ClockTextNonEmpty(s.endTime.value);
    }
  }

  lemma {:induction false} RestoreUndoesStoreAll(segments: seq<Segment>)
    requires StartsHaveEnds(segments)
    ensures RestoreSegments(StoreSegments(segments)) == PlainAll(segments)
  {
    if segments != [] {
      RestoreUndoesStoreAll(segments[..|segments| - 1]);
      RestoreUndoesStore(segments[|segments| - 1]);
    }
  }

  lemma {:induction false} PlaceCommutesWithPlain(sorted: seq<Segment>, s: Segment)
    ensures PlainAll(Place(sorted, s)) == Place(PlainAll(sorted), Plain(s))
  {
    if !(sorted == [] || sorted[|sorted| - 1].sortOrder <= s.sortOrder) {
      PlaceCommutesWithPlain(sorted[..|sorted| - 1], s);
      assert PlainAll(sorted)[..|sorted| - 1] == PlainAll(sorted[..|sorted| - 1]);
    }
  }

  lemma {:induction false} OrderCommutesWithPlain(segments: seq<Segment>)
    ensures PlainAll(InOrder(segments)) == InOrder(PlainAll(segments))
  {
    if segments != [] {
      var init, last := segments[..|segments| - 1], segments[|segments| - 1];
      OrderCommutesWithPlain(init);
      PlaceCommutesWithPlain(InOrder(init), last);
      assert PlainAll(segments)[..|segments| - 1] == PlainAll(init);
    }
  }

  /** Restoring a snapshot gives the day as the tables would return it: nothing but segment
      row identities and input order is lost. */
  lemma SnapshotRoundTrip(day: Day)
    requires StartsHaveEnds(day.content.segments)
    ensures DayFromStored(StoredFromDay(day)) == day.(content := ReadBack(day.content))
  {
    OrderKeepsEnds(day.content.segments);
    RestoreUndoesStoreAll(InOrder(day.content.segments));
    OrderCommutesWithPlain(day.content.segments);
  }

  /** On a day read from the tables the two conversions are inverse. */
  lemma CanonicalRoundTrip(day: Day)
    requires Canonical(day.content)
    ensures StartsHaveEnds(day.content.segments) && DayFromStored(StoredFromDay(day)) == day
  {
    ReadBackFixesCanonical(day.content);
    SnapshotRoundTrip(day);
  }

  // ----- comparison

  predicate SegmentsEquivalent(a: StoredSegment, b: StoredSegment) {
    a.kind == b.kind && a.shiftId == b.shiftId && a.startTime == b.startTime && a.endTime == b.endTime
    && a.crossDay == b.crossDay
  }

  /** schedulesEquivalent: source, creator, names and labels do not matter. */
  predicate SchedulesEquivalent(left: StoredSchedule, right: StoredSchedule) {
    left.status == right.status && TrimSpace(left.note) == TrimSpace(right.note)
    && |left.segments| == |right.segments|
    && forall i :: 0 <= i < |left.segments| ==> SegmentsEquivalent(left.segments[i], right.segments[i])
  }
}
