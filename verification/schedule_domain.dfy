/** White space as strings.TrimSpace sees it. */
module Text {
  predicate IsSpace(c: char) {
    c in {'\t', '\n', '\U{0B}', '\U{0C}', '\r', ' ', '\U{85}', '\U{A0}', '\U{1680}',
          '\U{2028}', '\U{2029}', '\U{202F}', '\U{205F}', '\U{3000}'}
    || '\U{2000}' <= c <= '\U{200A}'
  }

  function TrimLeft(s: string): string {
    if s != "" && IsSpace(s[0]) then TrimLeft(s[1..]) else s
  }

  function TrimRight(s: string): string {
    if s != "" && IsSpace(s[|s| - 1]) then TrimRight(s[..|s| - 1]) else s
  }

  function TrimSpace(s: string): string {
    TrimRight(TrimLeft(s))
  }

  predicate Blank(s: string) {
    TrimSpace(s) == ""
  }

  lemma {:induction false} TrimLeftMeaning(s: string)
    ensures TrimLeft(s) == "" <==> forall i :: 0 <= i < |s| ==> IsSpace(s[i])
    ensures TrimLeft(s) != "" ==> !IsSpace(TrimLeft(s)[0])
  {
    hide IsSpace;
    if s != "" && IsSpace(s[0]) {
      TrimLeftMeaning(s[1..]);
      assert forall i :: 0 < i < |s| ==> s[i] == s[1..][i - 1];
    }
  }

  lemma {:induction false} TrimRightMeaning(s: string)
    ensures s != "" && !IsSpace(s[0]) ==> TrimRight(s) != ""
  {
    hide IsSpace;
    if s != "" && IsSpace(s[|s| - 1]) {
      TrimRightMeaning(s[..|s| - 1]);
    }
  }

  lemma {:induction false} TrimLeftCuts(s: string) returns (cut: nat)
    ensures cut <= |s| && TrimLeft(s) == s[cut..] && forall i :: 0 <= i < cut ==> IsSpace(s[i])
  {
    hide IsSpace;
    cut := 0;
    if s != "" && IsSpace(s[0]) {
      var rest := TrimLeftCuts(s[1..]);
      cut := rest + 1;
      assert s[cut..] == s[1..][rest..] && forall i :: 0 < i < cut ==> s[i] == s[1..][i - 1];
    }
  }

  lemma {:induction false} TrimRightCuts(s: string) returns (left: nat)
    ensures left <= |s| && TrimRight(s) == s[..left] && forall i :: left <= i < |s| ==> IsSpace(s[i])
    ensures left > 0 ==> !IsSpace(s[left - 1])
  {
    hide IsSpace;
    left := |s|;
    if s != "" && IsSpace(s[|s| - 1]) {
      left := TrimRightCuts(s[..|s| - 1]);
      assert s[..left] == s[..|s| - 1][..left];
    }
  }

  /** Trimming takes away exactly the white space at both ends. */
  lemma TrimMeaning(s: string) returns (from: nat, past: nat)
    ensures from <= past <= |s| && TrimSpace(s) == s[from..past]
    ensures forall i :: 0 <= i < |s| && !(from <= i < past) ==> IsSpace(s[i])
    ensures from < past ==> !IsSpace(s[from]) && !IsSpace(s[past - 1])
  {
    hide IsSpace;
    from := TrimLeftCuts(s);
    TrimLeftMeaning(s);
    var left := TrimRightCuts(s[from..]);
    TrimRightMeaning(s[from..]);
    past := from + left;
    assert s[from..][..left] == s[from..past];
    forall i | past <= i < |s| ensures IsSpace(s[i]) {
      assert s[i] == s[from..][i - from];
    }
  }

  /** Blank is white space only. */
  lemma BlankMeaning(s: string)
    ensures Blank(s) <==> forall i :: 0 <= i < |s| ==> IsSpace(s[i])
  {
    hide IsSpace;
    TrimLeftMeaning(s);
    TrimRightMeaning(TrimLeft(s));
  }
}

/** One user's schedule for one day: clocks, segments, and the overlap rule. */
module ScheduleDomain {
  import opened Common
  import opened Calendar
  import opened Text

  datatype SegmentType = Shift | TimeRange | OtherType(name: string)
  datatype Status = Working | Rest | OtherStatus(name: string)
  datatype ScheduleError =
    | InvalidDate | InvalidStatus | InvalidSegmentType | RestHasSegments | IncompleteTimeRange
    | CrossDayRequired | InvalidCrossDay | OverlappingSegments | ShiftSnapshotRequired

  /** Minutes after midnight, as ParseClock produces them. */
  type Clock = c: nat | c < 1440

  datatype Segment = Segment(
    id: nat, kind: SegmentType, shiftId: Option<nat>, shiftName: string, shiftCode: string,
    startTime: Option<Clock>, endTime: Option<Clock>, crossDay: bool, displayColor: string,
    sortOrder: int, originalLabel: string)

  // ----- clocks

  /** Clock.String: two digits each for hours and minutes below a hundred hours. */
  function ClockText(c: Clock): string {
    Pad2(c / 60) + ":" + Pad2(c % 60)
  }

  function ParseClock(s: string): (r: Option<Clock>)
    ensures r.Some? ==> ClockText(r.value) == s
  {
    if |s| == 5 && s[2] == ':' && IsDigit(s[0]) && IsDigit(s[1]) && IsDigit(s[3]) && IsDigit(s[4]) then
      var hour, minute := Number2(s[0], s[1]), Number2(s[3], s[4]);
      if hour < 24 && minute < 60 then
        assert (60 * hour + minute) / 60 == hour && (60 * hour + minute) % 60 == minute;
        Some(60 * hour + minute)
      else None
    else None
  }

  /** An accepted clock is two digits for the hour below 24, a colon, and two digits for the
      minute below 60; its value is the minutes since midnight. */
  lemma ClockMeaning(s: string)
    ensures ParseClock(s).Some? <==>
            |s| == 5 && s[2] == ':' && '0' <= s[0] <= '9' && '0' <= s[1] <= '9' && '0' <= s[3] <= '5'
            && '0' <= s[4] <= '9' && (s[0] < '2' || (s[0] == '2' && s[1] < '4'))
    ensures ParseClock(s).Some? ==>
              ParseClock(s).value ==
              60 * (10 * (s[0] as int - '0' as int) + (s[1] as int - '0' as int))
              + 10 * (s[3] as int - '0' as int) + (s[4] as int - '0' as int)
  {
  }

  /** Parsing a clock's text gives the clock back. */
  lemma ParseUndoesClockText(c: Clock)
    ensures ParseClock(ClockText(c)) == Some(c)
  {
    Pad2Digits(c / 60);
    Pad2Digits(c % 60);
  }

  // ----- one segment

  /** Segment.Validate: None when the segment is acceptable. */
  function SegmentError(s: Segment): Option<ScheduleError> {
    if s.kind.Shift? && ((s.shiftId.None? && s.id == 0) || Blank(s.shiftName)) then Some(ShiftSnapshotRequired)
    else if s.kind.TimeRange? && s.shiftId.Some? then Some(InvalidSegmentType)
    else if s.kind.OtherType? then Some(InvalidSegmentType)
    else if s.startTime.None? != s.endTime.None? then Some(IncompleteTimeRange)
    else if s.kind.TimeRange? && s.startTime.None? then Some(IncompleteTimeRange)
    else if s.startTime.None? then None
    else if !s.crossDay && s.endTime.value <= s.startTime.value then Some(CrossDayRequired)
    else if s.crossDay && s.endTime.value > s.startTime.value then Some(InvalidCrossDay)
    else None
  }

  /** An acceptable segment, field by field: a shift has a reference and a name, a time range
      both times and no shift; times come in pairs; and a segment ends after it starts, on the
      same day unless it is marked as crossing midnight, and then at most a day later. */
  ghost predicate GoodSegment(s: Segment) {
    (match s.kind
     case Shift => (s.shiftId.Some? || s.id > 0) && exists i :: 0 <= i < |s.shiftName| && !IsSpace(s.shiftName[i])
     case TimeRange => s.shiftId == None && s.startTime.Some?
     case OtherType(_) => false)
    && (s.startTime.Some? <==> s.endTime.Some?)
    && (s.startTime.Some? && s.endTime.Some? ==>
          if s.crossDay then s.endTime.value <= s.startTime.value else s.startTime.value < s.endTime.value)
  }

  /** A segment reports no error exactly when it is acceptable, and otherwise the first of
      its faults: snapshot, type, missing time, missing mark, wrong mark. */
  lemma SegmentErrorMeaning(s: Segment)
    ensures SegmentError(s).None? <==> GoodSegment(s)
    ensures SegmentError(s) == Some(ShiftSnapshotRequired) <==>
            s.kind == Shift && ((s.shiftId == None && s.id == 0) || Blank(s.shiftName))
    ensures SegmentError(s) == Some(InvalidSegmentType) <==>
            s.kind.OtherType? || (s.kind == TimeRange && s.shiftId != None)
    ensures SegmentError(s) == Some(IncompleteTimeRange) ==>
              (s.startTime.Some? && s.endTime.None?) || (s.startTime.None? && s.endTime.Some?)
              || (s.kind == TimeRange && s.startTime.None?)
    ensures SegmentError(s) == Some(CrossDayRequired) ==>
              s.startTime.Some? && s.endTime.Some? && !s.crossDay && s.endTime.value <= s.startTime.value
    ensures SegmentError(s) == Some(InvalidCrossDay) ==>
              s.startTime.Some? && s.endTime.Some? && s.crossDay && s.startTime.value < s.endTime.value
    ensures SegmentError(s).Some? ==>
              SegmentError(s).value in
                {ShiftSnapshotRequired, InvalidSegmentType, IncompleteTimeRange, CrossDayRequired, InvalidCrossDay}
  {
    hide Blank, IsSpace;
    BlankMeaning(s.shiftName);
  }

  // ----- one day

  /** A half-open stretch of minutes counted from the day's midnight; a cross-day segment
      runs on into the next day. */
  datatype Interval = Interval(start: nat, end: nat)

  predicate Timed(s: Segment) {
    s.startTime.Some? && s.endTime.Some?
  }

  function Span(s: Segment): Interval
    requires Timed(s)
  {
    Interval(s.startTime.value, s.endTime.value + if s.crossDay then 1440 else 0)
  }

  ghost predicate Covers(a: Interval, minute: nat) {
    a.start <= minute < a.end
  }

  /** Some minute belongs to both. */
  ghost predicate ShareMinute(a: Interval, b: Interval) {
    exists m: nat :: Covers(a, m) && Covers(b, m)
  }

  ghost predicate SegmentsDisjoint(segments: seq<Segment>) {
    forall i, j :: 0 <= i < j < |segments| && Timed(segments[i]) && Timed(segments[j]) ==>
      !ShareMinute(Span(segments[i]), Span(segments[j]))
  }

  ghost predicate SegmentsFine(segments: seq<Segment>) {
    forall s :: s in segments ==> GoodSegment(s)
  }

  /** The segment takes up this minute, counted from midnight of its day. */
  ghost predicate Occupies(s: Segment, minute: nat) {
    s.startTime.Some? && s.endTime.Some? && s.startTime.value <= minute
    && minute < s.endTime.value + if s.crossDay then 24 * 60 else 0
  }

  /** An acceptable day, field by field: a date, a known status, no segment on a rest day, only
      acceptable segments, and no minute taken up twice. */
  ghost predicate GoodDay(date: string, status: Status, segments: seq<Segment>) {
    ParseDate(date).Some? && (status == Working || status == Rest) && (status == Rest ==> segments == [])
    && (forall i :: 0 <= i < |segments| ==> GoodSegment(segments[i]))
    && forall i, j, minute: nat :: 0 <= i < j < |segments| ==>
         !(Occupies(segments[i], minute) && Occupies(segments[j], minute))
  }

  lemma SpansAreMinutes(a: Segment, b: Segment)
    ensures (Timed(a) && Timed(b) && ShareMinute(Span(a), Span(b))) <==>
            exists minute: nat :: Occupies(a, minute) && Occupies(b, minute)
  {
    if Timed(a) && Timed(b) && ShareMinute(Span(a), Span(b)) {
      var minute: nat :| Covers(Span(a), minute) && Covers(Span(b), minute);
      assert Occupies(a, minute) && Occupies(b, minute);
    }
    if minute: nat :| Occupies(a, minute) && Occupies(b, minute) {
      assert Covers(Span(a), minute) && Covers(Span(b), minute);
    }
  }

  /** The first error of a list is that of its first bad segment. */
  lemma {:induction false} FirstErrorMeaning(segments: seq<Segment>)
    ensures FirstSegmentError(segments).Some? ==>
              exists k: nat :: k < |segments| && FirstSegmentError(segments) == SegmentError(segments[k])
                               && forall i :: 0 <= i < k ==> GoodSegment(segments[i])
    ensures FirstSegmentError(segments).Some? ==>
              FirstSegmentError(segments).value in
                {ShiftSnapshotRequired, InvalidSegmentType, IncompleteTimeRange, CrossDayRequired, InvalidCrossDay}
  {
    hide SegmentError, GoodSegment;
    if segments != [] {
      SegmentErrorMeaning(segments[0]);
      if SegmentError(segments[0]).None? {
        FirstErrorMeaning(segments[1..]);
        if FirstSegmentError(segments[1..]).Some? {
          var k: nat :| k < |segments[1..]| && FirstSegmentError(segments[1..]) == SegmentError(segments[1..][k])
                        && forall i :: 0 <= i < k ==> GoodSegment(segments[1..][i]);
          assert segments[k + 1] == segments[1..][k];
          assert forall i :: 0 < i < k + 1 ==> segments[i] == segments[1..][i - 1];
        }
      }
    }
  }

  /** The verdict accepts exactly the good days, and names the first fault of any other: date,
      status, segments on a rest day, a bad segment, a minute taken up twice. */
  lemma DayErrorMeaning(date: string, status: Status, segments: seq<Segment>)
    ensures DayError(date, status, segments).None? <==> GoodDay(date, status, segments)
    ensures DayError(date, status, segments) == Some(InvalidDate) <==> ParseDate(date).None?
    ensures DayError(date, status, segments) == Some(InvalidStatus) <==>
            ParseDate(date).Some? && status != Working && status != Rest
    ensures DayError(date, status, segments) == Some(RestHasSegments) <==>
            ParseDate(date).Some? && status == Rest && segments != []
    ensures DayError(date, status, segments) == Some(OverlappingSegments) ==>
              forall i :: 0 <= i < |segments| ==> GoodSegment(segments[i])
  {
    hide ParseDate, GoodSegment, Occupies, Span, ShareMinute, Timed;
    NoSegmentError(segments);
    FirstErrorMeaning(segments);
    assert SegmentsFine(segments) <==> forall i :: 0 <= i < |segments| ==> GoodSegment(segments[i]);
    forall i, j | 0 <= i < j < |segments|
      ensures (Timed(segments[i]) && Timed(segments[j]) && ShareMinute(Span(segments[i]), Span(segments[j]))) <==>
              exists minute: nat :: Occupies(segments[i], minute) && Occupies(segments[j], minute)
    {
      SpansAreMinutes(segments[i], segments[j]);
    }
  }

  function FirstSegmentError(segments: seq<Segment>): Option<ScheduleError> {
    if segments == [] then None
    else if SegmentError(segments[0]).Some? then SegmentError(segments[0])
    else FirstSegmentError(segments[1..])
  }

  /** The verdict stated without sorting: the first broken rule, and overlap last of all. */
  ghost function DayError(date: string, status: Status, segments: seq<Segment>): Option<ScheduleError> {
    if ParseDate(date).None? then Some(InvalidDate)
    else if status.OtherStatus? then Some(InvalidStatus)
    else if status.Rest? && segments != [] then Some(RestHasSegments)
    else if FirstSegmentError(segments).Some? then FirstSegmentError(segments)
    else if !SegmentsDisjoint(segments) then Some(OverlappingSegments)
    else None
  }

  lemma {:induction false} NoSegmentError(segments: seq<Segment>)
    ensures FirstSegmentError(segments).None? <==> SegmentsFine(segments)
  {
    hide SegmentError, GoodSegment;
    if segments != [] {
      SegmentErrorMeaning(segments[0]);
      NoSegmentError(segments[1..]);
      assert forall s :: s in segments <==> s == segments[0] || s in segments[1..];
    }
  }

  lemma {:induction false} FirstErrorAfter(prefix: seq<Segment>, rest: seq<Segment>)
    requires FirstSegmentError(prefix).None?
    ensures FirstSegmentError(prefix + rest) == FirstSegmentError(rest)
  {
    if prefix == [] {
      assert prefix + rest == rest;
    } else {
      FirstErrorAfter(prefix[1..], rest);
      assert (prefix + rest)[1..] == prefix[1..] + rest;
    }
  }

  /** The intervals of the timed segments, in segment order. */
  function Spans(segments: seq<Segment>): seq<Interval> {
    if segments == [] then []
    else Spans(segments[..|segments| - 1])
         + (var s := segments[|segments| - 1]; if Timed(s) then [Span(s)] else [])
  }

  ghost predicate Proper(spans: seq<Interval>) {
    forall i :: 0 <= i < |spans| ==> spans[i].start < spans[i].end
  }

  ghost predicate Disjoint(spans: seq<Interval>) {
    forall i, j :: 0 <= i < j < |spans| ==> !ShareMinute(spans[i], spans[j])
  }

  ghost predicate SortedByStart(spans: seq<Interval>) {
    forall i, j :: 0 <= i < j < |spans| ==> spans[i].start <= spans[j].start
  }

  ghost predicate NeighboursApart(spans: seq<Interval>) {
    forall i :: 1 <= i < |spans| ==> spans[i - 1].end <= spans[i].start
  }

  lemma Meet(a: Interval, b: Interval)
    requires a.start < a.end && b.start < b.end
    ensures ShareMinute(a, b) <==> a.start < b.end && b.start < a.end
  {
    if a.start < b.end && b.start < a.end {
      var m := if a.start < b.start then b.start else a.start;
      assert Covers(a, m) && Covers(b, m);
    }
  }

  lemma {:induction false} ChainApart(spans: seq<Interval>, i: nat, j: nat)
    requires Proper(spans) && NeighboursApart(spans) && i < j < |spans|
    ensures spans[i].end <= spans[j].start
    decreases j
  {
    if i < j - 1 {
      ChainApart(spans, i, j - 1);
      assert spans[j - 1].end <= spans[j].start;
    }
  }

  /** Once sorted by start, looking at neighbours is as good as looking at every pair. */
  lemma NeighboursSuffice(spans: seq<Interval>)
    requires Proper(spans) && SortedByStart(spans)
    ensures NeighboursApart(spans) <==> Disjoint(spans)
  {
    if NeighboursApart(spans) {
      forall i, j | 0 <= i < j < |spans|
        ensures !ShareMinute(spans[i], spans[j])
      {
        ChainApart(spans, i, j);
        Meet(spans[i], spans[j]);
      }
    }
    if Disjoint(spans) {
      forall i | 1 <= i < |spans|
        ensures spans[i - 1].end <= spans[i].start
      {
        Meet(spans[i - 1], spans[i]);
        assert !ShareMinute(spans[i - 1], spans[i]);
      }
    }
  }

  ghost predicate OncePerInterval(m: multiset<Interval>) {
    forall a :: a in m ==> m[a] == 1
  }

  ghost predicate ApartAsMembers(m: multiset<Interval>) {
    forall a, b :: a in m && b in m && a != b ==> !ShareMinute(a, b)
  }

  lemma DisjointMeansOnce(spans: seq<Interval>)
    requires Proper(spans) && Disjoint(spans)
    ensures OncePerInterval(multiset(spans))
  {
    forall a | a in multiset(spans)
      ensures multiset(spans)[a] == 1
    {
      var i :| 0 <= i < |spans| && spans[i] == a;
      var left, right := spans[..i], spans[i + 1..];
      assert spans == left + [a] + right;
      Meet(a, a);
      assert a !in left && a !in right;
      assert multiset(spans) == multiset(left) + multiset([a]) + multiset(right);
    }
  }

  /** Disjointness is a property of the collection, whatever its order: no interval occurs
      twice and no two different ones meet. */
  lemma DisjointByCount(spans: seq<Interval>)
    requires Proper(spans)
    ensures Disjoint(spans) <==> OncePerInterval(multiset(spans)) && ApartAsMembers(multiset(spans))
  {
    if Disjoint(spans) {
      DisjointMeansOnce(spans);
      forall a, b | a in multiset(spans) && b in multiset(spans) && a != b
        ensures !ShareMinute(a, b)
      {
        var i :| 0 <= i < |spans| && spans[i] == a;
        var j :| 0 <= j < |spans| && spans[j] == b;
        Meet(a, b);
        Meet(b, a);
        assert i < j ==> !ShareMinute(spans[i], spans[j]);
        assert j < i ==> !ShareMinute(spans[j], spans[i]);
      }
    } else {
      var i, j :| 0 <= i < j < |spans| && ShareMinute(spans[i], spans[j]);
      assert spans[i] in multiset(spans) && spans[j] in multiset(spans);
      if spans[i] == spans[j] {
        assert spans == spans[..i] + [spans[i]] + spans[i + 1..j] + [spans[j]] + spans[j + 1..];
        assert multiset(spans)[spans[i]] >= 2;
      }
    }
  }

  lemma DisjointAnyOrder(spans: seq<Interval>, other: seq<Interval>)
    requires Proper(spans) && multiset(spans) == multiset(other)
    ensures Proper(other) && (Disjoint(spans) <==> Disjoint(other))
  {
    forall i | 0 <= i < |other|
      ensures other[i].start < other[i].end
    {
      assert other[i] in multiset(other);
      assert other[i] in spans;
    }
    DisjointByCount(spans);
    DisjointByCount(other);
  }

  /** The interval belongs to one of the timed segments. */
  ghost predicate FromSegment(segments: seq<Segment>, a: Interval) {
    exists i :: 0 <= i < |segments| && Timed(segments[i]) && Span(segments[i]) == a
  }

  ghost predicate ApartFrom(segments: seq<Segment>, a: Interval) {
    forall i :: 0 <= i < |segments| && Timed(segments[i]) ==> !ShareMinute(Span(segments[i]), a)
  }

  lemma {:induction false} SpansComeFromSegments(segments: seq<Segment>)
    ensures forall a :: a in Spans(segments) <==> FromSegment(segments, a)
  {
    if segments != [] {
      var init, last := segments[..|segments| - 1], segments[|segments| - 1];
      SpansComeFromSegments(init);
      forall a
        ensures a in Spans(segments) <==> FromSegment(segments, a)
      {
        if FromSegment(init, a) {
          var i :| 0 <= i < |init| && Timed(init[i]) && Span(init[i]) == a;
          assert segments[i] == init[i];
        }
        if Timed(last) && Span(last) == a {
          assert segments[|segments| - 1] == last;
        }
      }
    }
  }

  lemma DisjointAppend(spans: seq<Interval>, x: Interval)
    ensures Disjoint(spans + [x]) <==>
            Disjoint(spans) && forall k :: 0 <= k < |spans| ==> !ShareMinute(spans[k], x)
  {
    var longer := spans + [x];
    if Disjoint(longer) {
      forall i, j | 0 <= i < j < |spans| ensures !ShareMinute(spans[i], spans[j]) {
        assert longer[i] == spans[i] && longer[j] == spans[j];
      }
      forall k | 0 <= k < |spans| ensures !ShareMinute(spans[k], x) {
        assert longer[k] == spans[k] && longer[|spans|] == x;
      }
    }
  }

  lemma SegmentsDisjointAppend(init: seq<Segment>, last: Segment)
    ensures SegmentsDisjoint(init + [last]) <==>
            SegmentsDisjoint(init) && (Timed(last) ==> ApartFrom(init, Span(last)))
  {
    var longer := init + [last];
    assert forall i :: 0 <= i < |init| ==> longer[i] == init[i];
    assert longer[|init|] == last;
  }

  lemma {:induction false} SpansDisjoint(segments: seq<Segment>)
    ensures Disjoint(Spans(segments)) <==> SegmentsDisjoint(segments)
  {
    if segments != [] {
      var init, last := segments[..|segments| - 1], segments[|segments| - 1];
      assert segments == init + [last];
      SpansDisjoint(init);
      SpansComeFromSegments(init);
      if Timed(last) {
        var spans := Spans(init);
        assert ApartFrom(init, Span(last)) <==> forall k :: 0 <= k < |spans| ==> !ShareMinute(spans[k], Span(last)) by {
          assert forall k :: 0 <= k < |spans| ==> spans[k] in spans;
          assert forall i :: 0 <= i < |init| && Timed(init[i]) ==> FromSegment(init, Span(init[i]));
        }
        DisjointAppend(spans, Span(last));
        SegmentsDisjointAppend(init, last);
      } else {
        assert Spans(segments) == Spans(init);
        SegmentsDisjointAppend(init, last);
      }
    }
  }

  lemma SpansProper(segments: seq<Segment>)
    requires SegmentsFine(segments)
    ensures Proper(Spans(segments))
  {
    SpansComeFromSegments(segments);
    forall k | 0 <= k < |Spans(segments)|
      ensures Spans(segments)[k].start < Spans(segments)[k].end
    {
      assert Spans(segments)[k] in Spans(segments);
      var i :| 0 <= i < |segments| && Timed(segments[i]) && Span(segments[i]) == Spans(segments)[k];
      assert GoodSegment(segments[i]);
    }
  }

  function Insert(sorted: seq<Interval>, x: Interval): seq<Interval> {
    if sorted == [] || sorted[|sorted| - 1].start <= x.start then sorted + [x]
    else Insert(sorted[..|sorted| - 1], x) + [sorted[|sorted| - 1]]
  }

  lemma {:induction false} InsertArranges(sorted: seq<Interval>, x: Interval)
    ensures multiset(Insert(sorted, x)) == multiset(sorted) + multiset{x}
    ensures forall y :: y in Insert(sorted, x) <==> y in sorted || y == x
  {
    if !(sorted == [] || sorted[|sorted| - 1].start <= x.start) {
      var init, last := sorted[..|sorted| - 1], sorted[|sorted| - 1];
      InsertArranges(init, x);
      assert sorted == init + [last];
    }
  }

  lemma {:induction false} InsertSorts(sorted: seq<Interval>, x: Interval)
    requires SortedByStart(sorted)
    ensures SortedByStart(Insert(sorted, x))
  {
    if !(sorted == [] || sorted[|sorted| - 1].start <= x.start) {
      var init, last := sorted[..|sorted| - 1], sorted[|sorted| - 1];
      InsertSorts(init, x);
      InsertArranges(init, x);
      forall i | 0 <= i < |Insert(init, x)| ensures Insert(init, x)[i].start <= last.start {
        assert Insert(init, x)[i] in Insert(init, x);
      }
    }
  }

  /** sort.Slice by start: some sorted arrangement of the same intervals. */
  method SortByStart(spans: seq<Interval>) returns (sorted: seq<Interval>)
    ensures multiset(sorted) == multiset(spans) && SortedByStart(sorted)
  {
    sorted := [];
    var k := 0;
    while k < |spans|
      invariant 0 <= k <= |spans|
      invariant multiset(sorted) == multiset(spans[..k]) && SortedByStart(sorted)
    {
      assert spans[..k + 1] == spans[..k] + [spans[k]];
      InsertArranges(sorted, spans[k]);
      InsertSorts(sorted, spans[k]);
      sorted := Insert(sorted, spans[k]);
      k := k + 1;
    }
    assert spans[..k] == spans;
  }

  /** The first loop of Day.Validate: every segment is checked, timed ones are collected. */
  method CollectSpans(segments: seq<Segment>) returns (error: Option<ScheduleError>, spans: seq<Interval>)
    ensures error == FirstSegmentError(segments)
    ensures error.None? ==> spans == Spans(segments)
  {
    hide Span;
    spans := [];
    var k := 0;
    while k < |segments|
      invariant 0 <= k <= |segments|
      invariant FirstSegmentError(segments[..k]).None?
      invariant spans == Spans(segments[..k])
    {
      var s := segments[k];
      assert segments[..k] + segments[k..] == segments && segments[k..][0] == s;
      FirstErrorAfter(segments[..k], segments[k..]);
      if SegmentError(s).Some? {
        return SegmentError(s), [];
      }
      assert segments[..k + 1][..k] == segments[..k];
      assert segments[..k + 1] == segments[..k] + [s];
      FirstErrorAfter(segments[..k], [s]);
      if s.startTime.Some? {
        spans := spans + [Span(s)];
      }
      k := k + 1;
    }
    assert segments[..k] == segments;
    return None, spans;
  }

  /** Day.Validate: collect the intervals, sort them, compare neighbours. The verdict is
      the one that compares every pair. */
  method ValidateDay(date: string, status: Status, segments: seq<Segment>) returns (error: Option<ScheduleError>)
    ensures error == DayError(date, status, segments)
    ensures error.None? <==> GoodDay(date, status, segments)
  {
    hide GoodDay, ParseDate, SegmentError, SegmentsDisjoint, Spans;
    DayErrorMeaning(date, status, segments);
    if ParseDate(date).None? {
      return Some(InvalidDate);
    }
    if status != Working && status != Rest {
      return Some(InvalidStatus);
    }
    if status == Rest && |segments| > 0 {
      return Some(RestHasSegments);
    }
    var spans;
    error, spans := CollectSpans(segments);
    if error.Some? {
      return;
    }
    NoSegmentError(segments);
    SpansProper(segments);
    SpansDisjoint(segments);
    var sorted := SortByStart(spans);
    DisjointAnyOrder(spans, sorted);
    NeighboursSuffice(sorted);
    var i := 1;
    while i < |sorted|
      invariant 1 <= i
      invariant forall j :: 1 <= j < i && j < |sorted| ==> sorted[j - 1].end <= sorted[j].start
    {
      if sorted[i].start < sorted[i - 1].end {
        assert !NeighboursApart(sorted);
        return Some(OverlappingSegments);
      }
      i := i + 1;
    }
    return None;
  }

  // ----- what a valid day implies

  /** Two cross-day segments always share the last minute before midnight. */
  lemma OneCrossDaySegment(segments: seq<Segment>, i: nat, j: nat)
    requires SegmentsFine(segments) && SegmentsDisjoint(segments)
    requires i < j < |segments| && Timed(segments[i]) && Timed(segments[j])
    ensures !(segments[i].crossDay && segments[j].crossDay)
  {
    assert segments[i] in segments && segments[j] in segments;
    assert GoodSegment(segments[i]) && GoodSegment(segments[j]);
    Meet(Span(segments[i]), Span(segments[j]));
    assert !ShareMinute(Span(segments[i]), Span(segments[j]));
  }

  /** A cross-day segment starts after every other timed segment. */
  lemma CrossDayStartsLast(segments: seq<Segment>, i: nat, j: nat)
    requires SegmentsFine(segments) && SegmentsDisjoint(segments)
    requires i < |segments| && j < |segments| && i != j
    requires Timed(segments[i]) && Timed(segments[j]) && segments[i].crossDay
    ensures segments[j].startTime.value < segments[i].startTime.value
  {
    assert segments[i] in segments && segments[j] in segments;
    var a, b := Span(segments[i]), Span(segments[j]);
    Meet(a, b);
    if i < j {
      assert !ShareMinute(a, b);
    } else {
      Meet(b, a);
      assert !ShareMinute(b, a);
    }
  }

  function TotalMinutes(spans: seq<Interval>): int {
    if spans == [] then 0
    else TotalMinutes(spans[..|spans| - 1]) + spans[|spans| - 1].end - spans[|spans| - 1].start
  }

  lemma {:induction false} ChainTotal(spans: seq<Interval>)
    requires Proper(spans) && NeighboursApart(spans) && spans != []
    ensures TotalMinutes(spans) <= spans[|spans| - 1].end - spans[0].start
  {
    var init := spans[..|spans| - 1];
    if init != [] {
      ChainTotal(init);
      assert spans[|spans| - 2].end <= spans[|spans| - 1].start;
    }
  }

  lemma {:induction false} TotalOfSplit(left: seq<Interval>, a: Interval, right: seq<Interval>)
    ensures TotalMinutes(left + [a] + right) == TotalMinutes(left + right) + a.end - a.start
  {
    var whole := left + [a] + right;
    if right == [] {
      assert whole[..|whole| - 1] == left && left + right == left;
    } else {
      var init := right[..|right| - 1];
      assert whole[..|whole| - 1] == left + [a] + init;
      assert (left + right)[..|left + right| - 1] == left + init;
      TotalOfSplit(left, a, init);
    }
  }

  lemma {:induction false} TotalAnyOrder(spans: seq<Interval>, other: seq<Interval>)
    requires multiset(spans) == multiset(other)
    ensures TotalMinutes(spans) == TotalMinutes(other)
    decreases |spans|
  {
    assert |multiset(spans)| == |spans| && |multiset(other)| == |other|;
    if spans != [] {
      var init, a := spans[..|spans| - 1], spans[|spans| - 1];
      assert spans == init + [a];
      assert a in multiset(other);
      var i :| 0 <= i < |other| && other[i] == a;
      assert other == other[..i] + [a] + other[i + 1..];
      TotalOfSplit(other[..i], a, other[i + 1..]);
      assert multiset(other) == multiset(other[..i]) + multiset{a} + multiset(other[i + 1..]);
      assert multiset(other[..i] + other[i + 1..]) == multiset(other[..i]) + multiset(other[i + 1..]);
      assert multiset(init) == multiset(spans) - multiset{a};
      assert multiset(other[..i] + other[i + 1..]) == multiset(other) - multiset{a};
      TotalAnyOrder(init, other[..i] + other[i + 1..]);
    }
  }

  lemma {:induction false} SortedArrangement(spans: seq<Interval>) returns (sorted: seq<Interval>)
    ensures multiset(sorted) == multiset(spans) && SortedByStart(sorted)
  {
    if spans == [] {
      sorted := [];
    } else {
      assert spans == spans[..|spans| - 1] + [spans[|spans| - 1]];
      sorted := SortedArrangement(spans[..|spans| - 1]);
      InsertArranges(sorted, spans[|spans| - 1]);
      InsertSorts(sorted, spans[|spans| - 1]);
      sorted := Insert(sorted, spans[|spans| - 1]);
    }
  }

  /** The working time of an accepted day never exceeds 2879 minutes. */
  lemma DayTotalBound(segments: seq<Segment>)
    requires SegmentsFine(segments) && SegmentsDisjoint(segments)
    ensures TotalMinutes(Spans(segments)) <= 2879
  {
    var spans := Spans(segments);
    SpansProper(segments);
    SpansDisjoint(segments);
    var sorted := SortedArrangement(spans);
    DisjointAnyOrder(spans, sorted);
    NeighboursSuffice(sorted);
    TotalAnyOrder(spans, sorted);
    if sorted != [] {
      ChainTotal(sorted);
      var last := sorted[|sorted| - 1];
      assert last in multiset(spans);
      assert last in spans;
      SpansComeFromSegments(segments);
      var i :| 0 <= i < |segments| && Timed(segments[i]) && Span(segments[i]) == last;
      assert GoodSegment(segments[i]);
    }
  }
}
