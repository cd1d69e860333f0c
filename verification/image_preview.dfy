/** From a recognised draft to the items of a preview. */
module ImagePreview {
  import opened Common
  import opened Calendar
  import opened Text
  import opened ScheduleDomain
  import opened Snapshots
  import opened Review
  import opened Preview
  import opened RuleLanguage
  import opened RuleExpansion
  import opened DraftSchema

  datatype ShiftInfo = ShiftInfo(
    id: nat, name: string, code: string, startTime: string, endTime: string, crossDay: bool, displayColor: string)

  /** The frozen shifts by folded code and by folded alias; `fold` is strings.ToLower. */
  datatype Mapping = Mapping(aliases: map<string, ShiftInfo>, shifts: map<string, ShiftInfo>, fold: string -> string)

  function StatusOf(s: string): Status {
    if s == "WORKING" then Working else if s == "REST" then Rest else OtherStatus(s)
  }

  function KindOf(s: string): SegmentType {
    if s == "SHIFT" then Shift else if s == "TIME_RANGE" then TimeRange else OtherType(s)
  }

  /** By mapped code first, then by the label as written. */
  function FindShift(item: RawSegment, m: Mapping): Option<ShiftInfo> {
    var code, alias := m.fold(TrimSpace(item.mappedShiftCode)), m.fold(TrimSpace(item.originalLabel));
    if code in m.shifts then Some(m.shifts[code]) else if alias in m.aliases then Some(m.aliases[alias]) else None
  }

  predicate Unmapped(item: RawSegment, m: Mapping) {
    KindOf(item.kind).Shift? && FindShift(item, m).None?
  }

  function ConvertSegment(item: RawSegment, index: nat, m: Mapping): StoredSegment {
    var plain := StoredSegment(KindOf(item.kind), None, "", "", item.startTime, item.endTime, item.crossDay, "",
                               index, item.originalLabel);
    if !KindOf(item.kind).Shift? then plain
    else match FindShift(item, m)
      case None => plain
      case Some(shift) =>
        plain.(shiftId := Some(shift.id), shiftName := shift.name, shiftCode := shift.code,
               startTime := shift.startTime, endTime := shift.endTime, crossDay := shift.crossDay,
               displayColor := shift.displayColor)
  }

  function ConvertSegments(items: seq<RawSegment>, m: Mapping): (r: seq<StoredSegment>)
    ensures |r| == |items| && forall i :: 0 <= i < |r| ==> r[i] == ConvertSegment(items[i], i, m)
  {
    if items == [] then []
    else ConvertSegments(items[..|items| - 1], m) + [ConvertSegment(items[|items| - 1], |items| - 1, m)]
  }

  function MappingIssues(items: seq<RawSegment>, m: Mapping): seq<Issue> {
    if items == [] then []
    else
      var index, last := |items| - 1, items[|items| - 1];
      MappingIssues(items[..index], m)
      + if Unmapped(last, m) then [Issue("segments[" + Decimal(index) + "].mappedShiftCode", "班次无法映射到当前工作区")] else []
  }

  /** The segment that is validated: times that do not parse are left out. */
  function Checked(s: StoredSegment): Segment {
    Segment(0, s.kind, s.shiftId, s.shiftName, "",
            if s.startTime == "" then None else ParseClock(s.startTime),
            if s.endTime == "" then None else ParseClock(s.endTime),
            s.crossDay, "", 0, "")
  }

  function CheckedAll(segments: seq<StoredSegment>): (r: seq<Segment>)
    ensures |r| == |segments| && forall i :: 0 <= i < |r| ==> r[i] == Checked(segments[i])
  {
    if segments == [] then [] else CheckedAll(segments[..|segments| - 1]) + [Checked(segments[|segments| - 1])]
  }

  function ClockIssue(text: string, message: string): seq<Issue> {
    if text != "" && ParseClock(text).None? then [Issue("segments", message)] else []
  }

  function PartIssues(s: StoredSegment): seq<Issue> {
    ClockIssue(s.startTime, "开始时间无效") + ClockIssue(s.endTime, "结束时间无效")
  }

  function ClockIssues(segments: seq<StoredSegment>): seq<Issue> {
    if segments == [] then []
    else ClockIssues(segments[..|segments| - 1]) + PartIssues(segments[|segments| - 1])
  }

  /** A missing shift snapshot is no issue here. */
  ghost function DayIssues(date: string, status: Status, segments: seq<StoredSegment>): seq<Issue> {
    var error := DayError(date, status, CheckedAll(segments));
    if error.Some? && error != Some(ShiftSnapshotRequired) then [Issue("day", "排班领域校验失败")] else []
  }

  function SnapshotOf(entry: Entry, m: Mapping): StoredSchedule {
    StoredSchedule(StatusOf(entry.status), NoSource, None, TrimSpace(entry.note), 0,
                   ConvertSegments(entry.segments.Items(), m))
  }

  ghost function ConvertIssues(entry: Entry, m: Mapping): seq<Issue> {
    var snapshot := SnapshotOf(entry, m);
    MappingIssues(entry.segments.Items(), m) + ClockIssues(snapshot.segments)
    + DayIssues(entry.date, snapshot.status, snapshot.segments)
  }

  /** The first loop of convertEntry: shifts replace labels. */
  method MapSegments(items: seq<RawSegment>, m: Mapping) returns (segments: seq<StoredSegment>, issues: seq<Issue>)
    ensures segments == ConvertSegments(items, m) && issues == MappingIssues(items, m)
  {
    hide FindShift, Decimal, KindOf;
    segments, issues := [], [];
    for index := 0 to |items|
      invariant segments == ConvertSegments(items[..index], m)
      invariant issues == MappingIssues(items[..index], m)
    {
      var item := items[index];
      assert items[..index + 1][..index] == items[..index];
      var segment := StoredSegment(KindOf(item.kind), None, "", "", item.startTime, item.endTime, item.crossDay, "",
                                   index, item.originalLabel);
      if segment.kind == Shift {
        var found := FindShift(item, m);
        if found.None? {
          issues := issues + [Issue("segments[" + Decimal(index) + "].mappedShiftCode", "班次无法映射到当前工作区")];
        } else {
          var shift := found.value;
          segment := segment.(shiftId := Some(shift.id), shiftName := shift.name, shiftCode := shift.code,
                              startTime := shift.startTime, endTime := shift.endTime, crossDay := shift.crossDay,
                              displayColor := shift.displayColor);
        }
      }
      segments := segments + [segment];
    }
    assert items[..|items|] == items;
  }

  method CheckPart(part: StoredSegment) returns (checked: Segment, problems: seq<Issue>)
    ensures checked == Checked(part) && problems == PartIssues(part)
  {
    hide ParseClock;
    problems := [];
    checked := Segment(0, part.kind, part.shiftId, part.shiftName, "", None, None, part.crossDay, "", 0, "");
    if part.startTime != "" {
      var v := ParseClock(part.startTime);
      if v.None? {
        problems := problems + [Issue("segments", "开始时间无效")];
      }
      checked := checked.(startTime := v);
    }
    if part.endTime != "" {
      var v := ParseClock(part.endTime);
      if v.None? {
        problems := problems + [Issue("segments", "结束时间无效")];
      }
      checked := checked.(endTime := v);
    }
  }

  /** The second loop of convertEntry: the segments to validate, and what does not parse. */
  method CheckSegments(segments: seq<StoredSegment>) returns (parts: seq<Segment>, issues: seq<Issue>)
    ensures parts == CheckedAll(segments) && issues == ClockIssues(segments)
  {
    hide Checked, PartIssues;
    parts, issues := [], [];
    for index := 0 to |segments|
      invariant parts == CheckedAll(segments[..index]) && issues == ClockIssues(segments[..index])
    {
      var part := segments[index];
      assert segments[..index + 1][..index] == segments[..index];
      var checked, problems := CheckPart(part);
      issues := issues + problems;
      parts := parts + [checked];
    }
    assert segments[..|segments|] == segments;
  }

  /** convertEntry. */
  method ConvertEntry(entry: Entry, m: Mapping) returns (snapshot: StoredSchedule, issues: seq<Issue>)
    ensures snapshot == SnapshotOf(entry, m)
    ensures issues == ConvertIssues(entry, m)
  {
    hide DayError, ConvertSegments, MappingIssues, ClockIssues, CheckedAll;
    var segments, mapping := MapSegments(entry.segments.Items(), m);
    var parts, clocks := CheckSegments(segments);
    issues := mapping + clocks;
    var error := ValidateDay(entry.date, StatusOf(entry.status), parts);
    if error.Some? && error.value != ShiftSnapshotRequired {
      issues := issues + [Issue("day", "排班领域校验失败")];
    }
    snapshot := StoredSchedule(StatusOf(entry.status), NoSource, None, TrimSpace(entry.note), 0, segments);
  }

  // ----- typing

  predicate NamesDay(issues: seq<Issue>) {
    exists i :: 0 <= i < |issues| && issues[i].field == "day"
  }

  function TypeOf(uncertain: bool, issues: seq<Issue>, existing: Option<Existing>, draft: StoredSchedule): ItemType {
    if NamesDay(issues) then Invalid
    else if uncertain || issues != [] then Uncertain
    else Classify(draft, existing)
  }

  ghost function AllIssues(draft: Draft, entry: Entry, m: Mapping): seq<Issue> {
    ConvertIssues(entry, m) + entry.issues + draft.issues.Items()
  }

  /** The item of one date. */
  ghost function ItemOf(draft: Draft, byDate: map<string, Entry>, m: Mapping, existing: map<string, Existing>,
      date: string, id: nat): Item {
    if date !in byDate then Item(id, date, Missing, None, None, None, None)
    else
      var entry := byDate[date];
      var snapshot := SnapshotOf(entry, m);
      var prior := Lookup(existing, date);
      Item(id, date, TypeOf(entry.uncertain, AllIssues(draft, entry, m), prior, snapshot), Some(snapshot),
           if prior.Some? then Some(prior.value.id) else None,
           if prior.Some? then Some(prior.value.version) else None, None)
  }

  function EntriesByDate(entries: seq<Entry>): map<string, Entry> {
    if entries == [] then map[]
    else EntriesByDate(entries[..|entries| - 1])[entries[|entries| - 1].date := entries[|entries| - 1]]
  }

  lemma ItemHasDate(draft: Draft, byDate: map<string, Entry>, m: Mapping, existing: map<string, Existing>,
      date: string, id: nat)
    ensures ItemOf(draft, byDate, m, existing, date, id).date == date
  {
    hide SnapshotOf, AllIssues;
  }

  /** The item loop of Process over an already validated draft. */
  method BuildItems(draft: Draft, m: Mapping, existing: map<string, Existing>, start: string, end: string)
    returns (result: Option<PreviewResult>)
    ensures result.Some? ==>
              CoversPeriod(result.value.items, start, end) && CountsAgree(result.value) && |result.value.items| <= 366
              && forall i :: 0 <= i < |result.value.items| ==>
                   result.value.items[i] == ItemOf(draft, EntriesByDate(draft.entries.Items()), m, existing,
                       result.value.items[i].date, i)
    ensures result.None? <==> !PeriodFits(start, end)
  {
    hide ParseDate, DayNumber, LexLess, DayError, SchedulesEquivalent, IsDay, ConvertIssues, SnapshotOf, Format,
         ItemOf;
    var dates := DatesBetween(start, end);
    if dates.None? || |dates.value| > 366 {
      return None;
    }
    var byDate: map<string, Entry> := map[];
    var entries := draft.entries.Items();
    for k := 0 to |entries|
      invariant byDate == EntriesByDate(entries[..k])
    {
      assert entries[..k + 1][..k] == entries[..k];
      byDate := byDate[entries[k].date := entries[k]];
    }
    assert entries[..|entries|] == entries;
    var items: seq<Item> := [];
    var conflicts, invalids := 0, 0;
    for index := 0 to |dates.value|
      invariant |items| == index && conflicts == CountKinds(items, {Conflict})
                && invalids == CountKinds(items, {Invalid, Uncertain})
      invariant forall i :: 0 <= i < index ==>
                  items[i].date == dates.value[i] && items[i] == ItemOf(draft, byDate, m, existing, items[i].date, i)
    {
      var date := dates.value[index];
      var item := BuildItem(draft, byDate, m, existing, date, index);
      ItemHasDate(draft, byDate, m, existing, date, index);
      if item.kind == Conflict {
        conflicts := conflicts + 1;
      }
      if item.kind == Uncertain || item.kind == Invalid {
        invalids := invalids + 1;
      }
      CountOneMore(items, item, {Conflict});
      CountOneMore(items, item, {Invalid, Uncertain});
      items := items + [item];
    }
    return Some(PreviewResult(items, |dates.value|, conflicts, invalids));
  }

  /** The loop body of Process. */
  method BuildItem(draft: Draft, byDate: map<string, Entry>, m: Mapping, existing: map<string, Existing>,
      date: string, id: nat)
    returns (item: Item)
    ensures item == ItemOf(draft, byDate, m, existing, date, id)
  {
    hide ConvertIssues, SnapshotOf;
    if date !in byDate {
      return Item(id, date, Missing, None, None, None, None);
    }
    var entry := byDate[date];
    var snapshot, issues := ConvertEntry(entry, m);
    issues := issues + entry.issues;
    issues := issues + draft.issues.Items();
    var kind := New;
    if entry.uncertain || |issues| > 0 {
      kind := Uncertain;
    }
    for k := 0 to |issues|
      invariant kind == if NamesDay(issues[..k]) then Invalid
                        else if entry.uncertain || |issues| > 0 then Uncertain else New
    {
      assert issues[..k + 1] == issues[..k] + [issues[k]];
      DayNamedSoFar(issues, k);
      if issues[k].field == "day" {
        kind := Invalid;
      }
    }
    assert issues[..|issues|] == issues;
    var anchorId, anchorVersion: Option<nat> := None, None;
    if date in existing {
      anchorId, anchorVersion := Some(existing[date].id), Some(existing[date].version);
      if kind != Uncertain && kind != Invalid {
        if SchedulesEquivalent(snapshot, existing[date].snapshot) {
          kind := Same;
        } else {
          kind := Conflict;
        }
      }
    }
    return Item(id, date, kind, Some(snapshot), anchorId, anchorVersion, None);
  }

  lemma DayNamedSoFar(issues: seq<Issue>, k: nat)
    requires k < |issues|
    ensures NamesDay(issues[..k + 1]) <==> NamesDay(issues[..k]) || issues[k].field == "day"
  {
    if NamesDay(issues[..k]) {
      var i :| 0 <= i < k && issues[..k][i].field == "day";
      assert issues[..k + 1][i].field == "day";
    }
    if issues[k].field == "day" {
      assert issues[..k + 1][k].field == "day";
    }
  }

  // ----- soundness

  /** Every shift segment of the draft carries a name that is not blank. */
  ghost predicate ShiftsNamed(segments: seq<StoredSegment>) {
    forall i :: 0 <= i < |segments| && segments[i].kind.Shift? ==> !Blank(segments[i].shiftName)
  }

  lemma {:induction false} NoMappingIssues(items: seq<RawSegment>, m: Mapping)
    ensures MappingIssues(items, m) == [] <==> forall i :: 0 <= i < |items| ==> !Unmapped(items[i], m)
  {
    if items != [] {
      NoMappingIssues(items[..|items| - 1], m);
    }
  }

  predicate ClocksParse(s: StoredSegment) {
    (s.startTime != "" ==> ParseClock(s.startTime).Some?) && (s.endTime != "" ==> ParseClock(s.endTime).Some?)
  }

  lemma NoIssueMeansClocksParse(s: StoredSegment)
    ensures PartIssues(s) == [] <==> ClocksParse(s)
  {
    hide ParseClock;
  }

  lemma {:induction false} NoClockIssues(segments: seq<StoredSegment>)
    ensures ClockIssues(segments) == [] <==> forall i :: 0 <= i < |segments| ==> ClocksParse(segments[i])
  {
    hide ClocksParse, PartIssues;
    if segments != [] {
      var init, last := segments[..|segments| - 1], segments[|segments| - 1];
      NoClockIssues(init);
      NoIssueMeansClocksParse(last);
      assert forall i :: 0 <= i < |init| ==> init[i] == segments[i];
    }
  }

  /** Restoring the stored segment gives back what was validated, as far as validation looks. */
  lemma RestoredAsChecked(s: StoredSegment)
    requires ClocksParse(s) && GoodSegment(Checked(s))
    ensures var r := RestoreSegment(s);
            GoodSegment(r) && r.startTime == Checked(s).startTime && r.endTime == Checked(s).endTime
            && r.crossDay == Checked(s).crossDay
  {
  }

  lemma SameTimesDisjoint(a: seq<Segment>, b: seq<Segment>)
    requires |a| == |b| && SegmentsDisjoint(a)
    requires forall i :: 0 <= i < |a| ==>
               a[i].startTime == b[i].startTime && a[i].endTime == b[i].endTime && a[i].crossDay == b[i].crossDay
    ensures SegmentsDisjoint(b)
  {
    hide ShareMinute;
    forall i, j | 0 <= i < j < |b| && Timed(b[i]) && Timed(b[j]) ensures !ShareMinute(Span(b[i]), Span(b[j])) {
      assert Span(b[i]) == Span(a[i]) && Span(b[j]) == Span(a[j]);
    }
  }

  /** Segments that agree in their times and are all fine make equally good days. */
  lemma SameTimesSameVerdict(date: string, status: Status, a: seq<Segment>, b: seq<Segment>)
    requires |a| == |b| && DayError(date, status, a).None?
    requires forall i :: 0 <= i < |a| ==>
               GoodSegment(b[i]) && a[i].startTime == b[i].startTime && a[i].endTime == b[i].endTime
               && a[i].crossDay == b[i].crossDay
    ensures DayError(date, status, b).None?
  {
    hide SegmentError, FirstSegmentError, GoodSegment;
    NoSegmentError(a);
    NoSegmentError(b);
    assert SegmentsFine(b);
    SameTimesDisjoint(a, b);
  }

  lemma {:induction false} RestoreAt(segments: seq<StoredSegment>, i: nat)
    requires i < |segments|
    ensures RestoreSegments(segments)[i] == RestoreSegment(segments[i])
  {
    if i < |segments| - 1 {
      RestoreAt(segments[..|segments| - 1], i);
    }
  }

  lemma {:induction false} NotTheFirstError(segments: seq<Segment>, error: ScheduleError)
    requires forall s :: s in segments ==> SegmentError(s) != Some(error)
    ensures FirstSegmentError(segments) != Some(error)
  {
    if segments != [] {
      assert segments[0] in segments;
      NotTheFirstError(segments[1..], error);
    }
  }

  lemma {:induction false} ByDateFinds(entries: seq<Entry>, date: string)
    requires date in EntriesByDate(entries)
    ensures EntriesByDate(entries)[date].date == date && EntriesByDate(entries)[date] in entries
  {
    var init, last := entries[..|entries| - 1], entries[|entries| - 1];
    if last.date != date {
      ByDateFinds(init, date);
    }
  }

  /** What it takes for an entry to raise no issue of its own. */
  lemma NoIssuesMeans(entry: Entry, m: Mapping)
    requires ConvertIssues(entry, m) == []
    ensures var s := SnapshotOf(entry, m);
            (forall i :: 0 <= i < |s.segments| ==>
               ClocksParse(s.segments[i]) && (s.segments[i].kind.Shift? ==> s.segments[i].shiftId.Some?))
            && (DayError(entry.date, s.status, CheckedAll(s.segments)).None?
                || DayError(entry.date, s.status, CheckedAll(s.segments)) == Some(ShiftSnapshotRequired))
  {
    hide DayError, ParseClock, FindShift, KindOf;
    var items := entry.segments.Items();
    NoMappingIssues(items, m);
    NoClockIssues(SnapshotOf(entry, m).segments);
    assert DayIssues(entry.date, SnapshotOf(entry, m).status, SnapshotOf(entry, m).segments) == [];
    forall i | 0 <= i < |items|
      ensures SnapshotOf(entry, m).segments[i] == ConvertSegment(items[i], i, m) && !Unmapped(items[i], m)
    {
    }
  }

  lemma NamedShiftPasses(s: StoredSegment)
    requires s.kind.Shift? ==> s.shiftId.Some? && !Blank(s.shiftName)
    ensures SegmentError(Checked(s)) != Some(ShiftSnapshotRequired)
  {
    hide ParseClock, Blank;
  }

  lemma {:induction false} CheckedDayIsGood(date: string, status: Status, segments: seq<StoredSegment>)
    requires forall i :: 0 <= i < |segments| && segments[i].kind.Shift? ==> segments[i].shiftId.Some?
    requires ShiftsNamed(segments)
    requires DayError(date, status, CheckedAll(segments)) in {None, Some(ShiftSnapshotRequired)}
    ensures DayError(date, status, CheckedAll(segments)).None?
  {
    hide ParseClock, Blank, SegmentsDisjoint, SegmentError, Checked;
    var parts := CheckedAll(segments);
    forall s | s in parts ensures SegmentError(s) != Some(ShiftSnapshotRequired) {
      var i :| 0 <= i < |parts| && parts[i] == s;
      NamedShiftPasses(segments[i]);
    }
    NotTheFirstError(parts, ShiftSnapshotRequired);
  }

  lemma {:induction false} GoodDayRestores(date: string, status: Status, segments: seq<StoredSegment>)
    requires forall i :: 0 <= i < |segments| ==> ClocksParse(segments[i])
    requires DayError(date, status, CheckedAll(segments)).None?
    ensures DayError(date, status, RestoreSegments(segments)).None?
  {
    hide ClocksParse, Checked, RestoreSegment, SegmentError, GoodSegment, SegmentsDisjoint;
    var parts, restored := CheckedAll(segments), RestoreSegments(segments);
    NoSegmentError(parts);
    forall i | 0 <= i < |segments|
      ensures GoodSegment(restored[i]) && parts[i].startTime == restored[i].startTime
              && parts[i].endTime == restored[i].endTime && parts[i].crossDay == restored[i].crossDay
    {
      RestoreAt(segments, i);
      assert parts[i] == Checked(segments[i]) && parts[i] in parts;
      RestoredAsChecked(segments[i]);
    }
    SameTimesSameVerdict(date, status, parts, restored);
  }

  lemma {:induction false} BlankNameRejected(date: string, status: Status, segments: seq<StoredSegment>, i: nat)
    requires i < |segments| && segments[i].kind.Shift? && Blank(segments[i].shiftName)
    ensures DayError(date, status, RestoreSegments(segments)).Some?
  {
    hide Blank, SegmentsDisjoint;
    var restored := RestoreSegments(segments);
    RestoreAt(segments, i);
    NoSegmentError(restored);
    SegmentErrorMeaning(restored[i]);
    assert restored[i] in restored && !GoodSegment(restored[i]);
  }

  /** A model's item typed NEW, SAME or CONFLICT is accepted when the commit rebuilds it exactly
      when all its shifts have names: convertEntry lets a missing shift snapshot pass, the
      commit does not. */
  lemma TrustedItemsCommit(draft: Draft, m: Mapping, existing: map<string, Existing>,
      date: string, id: nat)
    requires TrustedKind(ItemOf(draft, EntriesByDate(draft.entries.Items()), m, existing, date, id).kind)
    ensures var item := ItemOf(draft, EntriesByDate(draft.entries.Items()), m, existing, date, id);
            item.draft.Some? && item.date == date
            && (CommitVerdict(item).None? <==> ShiftsNamed(item.draft.value.segments))
  {
    hide DayError, ConvertIssues, SchedulesEquivalent, RestoreSegments, CheckedAll, ConvertSegments;
    var item := ItemOf(draft, EntriesByDate(draft.entries.Items()), m, existing, date, id);
    var entry := EntriesByDate(draft.entries.Items())[date];
    ByDateFinds(draft.entries.Items(), date);
    var s := SnapshotOf(entry, m);
    assert AllIssues(draft, entry, m) == [];
    assert ConvertIssues(entry, m) == [];
    NoIssuesMeans(entry, m);
    if ShiftsNamed(s.segments) {
      CheckedDayIsGood(date, s.status, s.segments);
      GoodDayRestores(date, s.status, s.segments);
    } else {
      var i :| 0 <= i < |s.segments| && s.segments[i].kind.Shift? && Blank(s.segments[i].shiftName);
      BlankNameRejected(date, s.status, s.segments, i);
    }
  }

  /** Every shift a mapping can resolve to has a name. */
  ghost predicate ShiftsHaveNames(m: Mapping) {
    (forall k :: k in m.shifts ==> !Blank(m.shifts[k].name)) && forall k :: k in m.aliases ==> !Blank(m.aliases[k].name)
  }

  lemma NamedShiftsName(entry: Entry, m: Mapping)
    requires ShiftsHaveNames(m) && ConvertIssues(entry, m) == []
    ensures ShiftsNamed(SnapshotOf(entry, m).segments)
  {
    hide Blank, KindOf, DayIssues, ClockIssues;
    var items := entry.segments.Items();
    NoMappingIssues(items, m);
    forall i | 0 <= i < |items| && SnapshotOf(entry, m).segments[i].kind.Shift?
      ensures !Blank(SnapshotOf(entry, m).segments[i].shiftName)
    {
      assert SnapshotOf(entry, m).segments[i] == ConvertSegment(items[i], i, m) && !Unmapped(items[i], m);
    }
  }

  /** With shifts as the program stores them, names trimmed and never empty, every item of a
      model typed NEW, SAME or CONFLICT is accepted when the commit rebuilds its day. */
  lemma NamedShiftsCommit(draft: Draft, m: Mapping, existing: map<string, Existing>, date: string, id: nat)
    requires ShiftsHaveNames(m)
    requires TrustedKind(ItemOf(draft, EntriesByDate(draft.entries.Items()), m, existing, date, id).kind)
    ensures var item := ItemOf(draft, EntriesByDate(draft.entries.Items()), m, existing, date, id);
            item.draft.Some? && item.date == date && CommitVerdict(item).None?
  {
    hide DayError, ConvertIssues, SchedulesEquivalent, RestoreSegments, CheckedAll, ConvertSegments, ShiftsHaveNames;
    TrustedItemsCommit(draft, m, existing, date, id);
    var entry := EntriesByDate(draft.entries.Items())[date];
    assert AllIssues(draft, entry, m) == [];
    NamedShiftsName(entry, m);
  }
}
