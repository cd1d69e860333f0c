/** What the type of a preview item tells about the day in the file and the day in store. */
module PreviewMeaning {
  import opened Common
  import opened Calendar
  import opened Text
  import opened ScheduleDomain
  import opened Snapshots
  import opened Review
  import opened Preview
  import RuleLanguage
  import RuleExpansion
  import ImagePreview
  import SheetPreview

  // ----- the comparison

  /** Two schedules a person would call the same: status, note but for white space around it,
      and segment by segment kind, shift, times and the mark for crossing midnight. */
  ghost predicate SameToPeople(a: StoredSchedule, b: StoredSchedule) {
    a.status == b.status && TrimSpace(a.note) == TrimSpace(b.note) && |a.segments| == |b.segments|
    && forall i :: 0 <= i < |a.segments| ==>
         a.segments[i].kind == b.segments[i].kind && a.segments[i].shiftId == b.segments[i].shiftId
         && a.segments[i].startTime == b.segments[i].startTime && a.segments[i].endTime == b.segments[i].endTime
         && a.segments[i].crossDay == b.segments[i].crossDay
  }

  lemma EquivalentMeaning(a: StoredSchedule, b: StoredSchedule)
    ensures SchedulesEquivalent(a, b) <==> SameToPeople(a, b)
  {
    hide TrimSpace;
  }

  lemma {:induction false} RestoredAt(segments: seq<StoredSegment>, i: nat)
    requires i < |segments|
    ensures RestoreSegments(segments)[i] == RestoreSegment(segments[i])
  {
    if i < |segments| - 1 {
      RestoredAt(segments[..|segments| - 1], i);
    }
  }

  /** Whatever a draft typed SAME says, the stored day says it already: restored, it has the
      status of the day and segments of the same kinds, shifts and times. */
  lemma SameDraftChangesNothing(draft: StoredSchedule, day: Day)
    requires Canonical(day.content) && StartsHaveEnds(day.content.segments)
    requires SchedulesEquivalent(draft, StoredFromDay(day))
    ensures var restored := DayFromStored(draft).content;
            restored.status == day.content.status && |restored.segments| == |day.content.segments|
            && forall i :: 0 <= i < |restored.segments| ==>
                 var a, b := restored.segments[i], day.content.segments[i];
                 a.kind == b.kind && a.shiftId == b.shiftId && a.startTime == b.startTime && a.endTime == b.endTime
                 && a.crossDay == b.crossDay
  {
    hide StoredFromDay, Canonical, ClockOrMidnight, TrimSpace;
    CanonicalRoundTrip(day);
    var stored := StoredFromDay(day);
    EquivalentMeaning(draft, stored);
    forall i | 0 <= i < |draft.segments|
      ensures RestoreSegments(draft.segments)[i] == RestoreSegment(draft.segments[i])
      ensures day.content.segments[i] == RestoreSegment(stored.segments[i])
    {
      RestoredAt(draft.segments, i);
      RestoredAt(stored.segments, i);
    }
  }

  // ----- the types

  /** The type of an item compared with the stored day of its date. */
  ghost predicate TypedBy(kind: ItemType, draft: StoredSchedule, existing: map<string, Existing>, date: string) {
    if date !in existing then kind == New
    else if SameToPeople(draft, existing[date].snapshot) then kind == Same
    else kind == Conflict
  }

  /** The anchors name the stored day, or nothing when there is none. */
  ghost predicate AnchoredBy(item: Item, existing: map<string, Existing>) {
    if item.date in existing then
      item.anchorId == Some(existing[item.date].id) && item.anchorVersion == Some(existing[item.date].version)
    else item.anchorId == None && item.anchorVersion == None
  }

  ghost predicate IssueOn(issues: seq<RuleLanguage.Issue>, field: string) {
    exists i :: 0 <= i < |issues| && issues[i].field == field
  }

  lemma ClassifyMeaning(draft: StoredSchedule, existing: map<string, Existing>, date: string)
    ensures TypedBy(Classify(draft, Lookup(existing, date)), draft, existing, date)
  {
    hide SchedulesEquivalent, SameToPeople;
    if date in existing {
      EquivalentMeaning(draft, existing[date].snapshot);
    }
  }

  /** The type of a model's item: MISSING without an entry, INVALID for an issue on the day
      itself, UNCERTAIN for any other doubt or issue, and otherwise by the stored day. */
  lemma ImageItemMeaning(draft: RuleExpansion.Draft, byDate: map<string, RuleExpansion.Entry>, m: ImagePreview.Mapping,
      existing: map<string, Existing>, date: string, id: nat)
    ensures var item := ImagePreview.ItemOf(draft, byDate, m, existing, date, id);
            item.date == date && item.id == id && item.decision == None
            && if date !in byDate then item.kind == Missing && item.draft == None
               else
                 var issues := ImagePreview.AllIssues(draft, byDate[date], m);
                 item.draft == Some(ImagePreview.SnapshotOf(byDate[date], m)) && AnchoredBy(item, existing)
                 && if IssueOn(issues, "day") then item.kind == Invalid
                    else if byDate[date].uncertain || issues != [] then item.kind == Uncertain
                    else TypedBy(item.kind, item.draft.value, existing, date)
  {
    hide ImagePreview.SnapshotOf, ImagePreview.AllIssues, Classify, TypedBy;
    if date in byDate {
      ClassifyMeaning(ImagePreview.SnapshotOf(byDate[date], m), existing, date);
    }
  }

  /** What a model's entry becomes: its status word, its note without white space around it, and
      each of its segments converted. */
  lemma SnapshotMeaning(entry: RuleExpansion.Entry, m: ImagePreview.Mapping, i: nat)
    ensures var s := ImagePreview.SnapshotOf(entry, m);
            (s.status == Working <==> entry.status == "WORKING") && (s.status == Rest <==> entry.status == "REST")
            && s.note == TrimSpace(entry.note) && |s.segments| == |entry.segments.Items()|
            && (i < |s.segments| ==> s.segments[i] == ImagePreview.ConvertSegment(entry.segments.Items()[i], i, m))
  {
    hide TrimSpace, ImagePreview.ConvertSegment;
  }

  /** The segment names a shift the mapping knows, or none at all. */
  predicate ShiftKnown(item: RuleLanguage.RawSegment, m: ImagePreview.Mapping) {
    item.kind == "SHIFT" ==>
      m.fold(TrimSpace(item.mappedShiftCode)) in m.shifts || m.fold(TrimSpace(item.originalLabel)) in m.aliases
  }

  /** The times of the converted segment are clocks, or left out. */
  predicate TimesRead(s: StoredSegment) {
    (s.startTime == "" || ParseClock(s.startTime).Some?) && (s.endTime == "" || ParseClock(s.endTime).Some?)
  }

  /** An entry raises no issue exactly when its shifts are known, its times are clocks and its day
      is valid or lacks only a shift's name or identity; and an issue on the day itself exactly
      when the day is invalid in another way. */
  lemma IssuesMeaning(entry: RuleExpansion.Entry, m: ImagePreview.Mapping)
    ensures var s := ImagePreview.SnapshotOf(entry, m);
            var error := DayError(entry.date, s.status, ImagePreview.CheckedAll(s.segments));
            (ImagePreview.ConvertIssues(entry, m) == [] <==>
               (forall i :: 0 <= i < |entry.segments.Items()| ==> ShiftKnown(entry.segments.Items()[i], m))
               && (forall i :: 0 <= i < |s.segments| ==> TimesRead(s.segments[i]))
               && (error == None || error == Some(ShiftSnapshotRequired)))
            && (IssueOn(ImagePreview.ConvertIssues(entry, m), "day") <==>
                  error.Some? && error != Some(ShiftSnapshotRequired))
  {
    hide DayError, ParseClock, TrimSpace, ImagePreview.CheckedAll, ImagePreview.ConvertSegments, ImagePreview.StatusOf,
         ImagePreview.MappingIssues, ImagePreview.ClockIssues;
    var items, s := entry.segments.Items(), ImagePreview.SnapshotOf(entry, m);
    ImagePreview.NoMappingIssues(items, m);
    ImagePreview.NoClockIssues(s.segments);
    MappingNamesSegments(items, m);
    ClocksNameSegments(s.segments);
    var day := ImagePreview.DayIssues(entry.date, s.status, s.segments);
    var others := ImagePreview.MappingIssues(items, m) + ImagePreview.ClockIssues(s.segments);
    assert ImagePreview.ConvertIssues(entry, m) == others + day;
    OnEither(others, day, "day");
    if day != [] {
      assert day[0].field == "day";
    }
    OnEither(ImagePreview.MappingIssues(items, m), ImagePreview.ClockIssues(s.segments), "day");
  }

  lemma OnEither(a: seq<RuleLanguage.Issue>, b: seq<RuleLanguage.Issue>, field: string)
    ensures IssueOn(a + b, field) <==> IssueOn(a, field) || IssueOn(b, field)
  {
    if IssueOn(a, field) {
      var i :| 0 <= i < |a| && a[i].field == field;
      assert (a + b)[i].field == field;
    }
    if IssueOn(b, field) {
      var i :| 0 <= i < |b| && b[i].field == field;
      assert (a + b)[|a| + i].field == field;
    }
  }

  lemma {:induction false} MappingNamesSegments(items: seq<RuleLanguage.RawSegment>, m: ImagePreview.Mapping)
    ensures !IssueOn(ImagePreview.MappingIssues(items, m), "day")
  {
    hide ImagePreview.Unmapped, Decimal;
    if items != [] {
      var index := |items| - 1;
      MappingNamesSegments(items[..index], m);
      assert ("segments[" + Decimal(index) + "].mappedShiftCode")[0] == 's';
    }
  }

  lemma {:induction false} ClocksNameSegments(segments: seq<StoredSegment>)
    ensures !IssueOn(ImagePreview.ClockIssues(segments), "day")
  {
    hide ParseClock;
    if segments != [] {
      ClocksNameSegments(segments[..|segments| - 1]);
    }
  }

  /** The type of a workbook's item. Its draft is the snapshot of the merged day. */
  lemma SheetItemMeaning(e: Option<SheetPreview.Entry>, existing: map<string, Existing>, date: string, id: nat)
    requires e.Some? ==> StartsHaveEnds(e.value.segments)
    ensures var item := SheetPreview.SheetItem(e, existing, date, id);
            item.date == date && item.id == id && item.decision == None
            && if e == None then item.kind == Missing && item.draft == None
               else
                 item.draft == Some(StoredFromDay(Day(
                   Content(e.value.status, NoSource, None, e.value.note, e.value.segments), 0)))
                 && AnchoredBy(item, existing)
                 && if e.value.uncertain then item.kind == Uncertain
                    else TypedBy(item.kind, item.draft.value, existing, date)
  {
    hide StoredFromDay, Classify, TypedBy, StartsHaveEnds;
    if e.Some? {
      ClassifyMeaning(SheetPreview.DraftOf(e.value), existing, date);
    }
  }

  /** A correction rewrites exactly the item it names: its draft is the corrected one, its type
      and anchors come from the stored day, and it awaits a new decision; the version moves on. */
  lemma {:induction false} CorrectedItems(items: seq<Item>, id: nat, draft: StoredSchedule, existing: Option<Existing>,
      i: nat)
    requires i < |items|
    ensures |CorrectItems(items, id, draft, existing)| == |items|
    ensures var item, was := CorrectItems(items, id, draft, existing)[i], items[i];
            if was.id != id then item == was
            else
              item.id == id && item.date == was.date && item.draft == Some(draft) && item.decision == None
              && (match existing
                  case None => item.kind == New && item.anchorId == None && item.anchorVersion == None
                  case Some(day) =>
                    item.anchorId == Some(day.id) && item.anchorVersion == Some(day.version)
                    && item.kind == if SameToPeople(draft, day.snapshot) then Same else Conflict)
  {
    hide SchedulesEquivalent, SameToPeople;
    CorrectKeepsDates(items, id, draft, existing);
    if existing.Some? {
      EquivalentMeaning(draft, existing.value.snapshot);
    }
    if i > 0 {
      CorrectedItems(items[1..], id, draft, existing, i - 1);
    }
  }

  /** Edits are taken only by a job under review whose present version they name, a version that
      is never 0; then the version is one higher and only items have changed. */
  lemma EditMeaning(job: ReviewJob, expected: nat, id: nat, draft: StoredSchedule, existing: Option<Existing>,
      decisions: seq<(nat, Decision)>)
    ensures Correct(job, expected, id, draft, existing).Ok? <==>
            job.state == NeedsReview && expected == job.reviewVersion && expected > 0
            && exists i :: 0 <= i < |job.items| && job.items[i].id == id
    ensures UpdateDecisions(job, expected, decisions).Ok? ==>
              job.state == NeedsReview && expected == job.reviewVersion && expected > 0
    ensures forall next: ReviewJob ::
              Correct(job, expected, id, draft, existing) == Ok(next)
              || UpdateDecisions(job, expected, decisions) == Ok(next) ==>
                next == job.(items := next.items, reviewVersion := job.reviewVersion + 1)
  {
    hide CorrectItems, DecideAll;
  }

  /** Why an edit is refused: a job that is not under review comes before another version, and
      that before an item that is missing or takes no such decision. */
  lemma EditErrors(job: ReviewJob, expected: nat, id: nat, draft: StoredSchedule, existing: Option<Existing>,
      decisions: seq<(nat, Decision)>)
    ensures var refusal := if job.state != NeedsReview then NotReviewable
                           else if expected == 0 || expected != job.reviewVersion then StaleReview
                           else InvalidImportItem;
            (Correct(job, expected, id, draft, existing).Err? ==>
               Correct(job, expected, id, draft, existing).error == refusal)
            && (UpdateDecisions(job, expected, decisions).Err? ==>
                  UpdateDecisions(job, expected, decisions).error == refusal)
  {
    hide CorrectItems, DecideAll, HasItem;
  }

  /** A decision is accepted for an item typed NEW or CONFLICT, and SKIP for any item. */
  lemma DecidableMeaning(item: Item, decision: Decision)
    ensures Decidable(item, decision) <==> item.kind == New || item.kind == Conflict || decision == Skip
  {
  }

  // ----- what a model's segment becomes

  /** A SHIFT takes everything from the shift found by its code, or failing that by its label,
      both trimmed and folded; any other segment, and a shift not found, keeps its own times. */
  lemma ConvertMeaning(item: RuleLanguage.RawSegment, index: nat, m: ImagePreview.Mapping)
    ensures var s := ImagePreview.ConvertSegment(item, index, m);
            var code, alias := m.fold(TrimSpace(item.mappedShiftCode)), m.fold(TrimSpace(item.originalLabel));
            s.sortOrder == index && s.originalLabel == item.originalLabel
            && (s.kind == Shift <==> item.kind == "SHIFT") && (s.kind == TimeRange <==> item.kind == "TIME_RANGE")
            && if item.kind == "SHIFT" && code in m.shifts then FromShift(s, m.shifts[code])
               else if item.kind == "SHIFT" && alias in m.aliases then FromShift(s, m.aliases[alias])
               else
                 s.shiftId == None && s.shiftName == "" && s.startTime == item.startTime && s.endTime == item.endTime
                 && s.crossDay == item.crossDay
  {
    hide TrimSpace;
  }

  ghost predicate FromShift(s: StoredSegment, shift: ImagePreview.ShiftInfo) {
    s.shiftId == Some(shift.id) && s.shiftName == shift.name && s.shiftCode == shift.code
    && s.startTime == shift.startTime && s.endTime == shift.endTime && s.crossDay == shift.crossDay
    && s.displayColor == shift.displayColor
  }

  // ----- what a workbook's row becomes

  /** A cell is read without white space around it, a missing one as empty, and a row is skipped
      when none of its cells holds anything else. */
  lemma CellMeaning(row: seq<string>, index: nat)
    ensures SheetPreview.Cell(row, index) == if index < |row| then TrimSpace(row[index]) else ""
    ensures SheetPreview.EmptyRow(row) <==> forall i, k :: 0 <= i < |row| && 0 <= k < |row[i]| ==> IsSpace(row[i][k])
  {
    hide IsSpace, TrimSpace, Blank;
    forall i | 0 <= i < |row| ensures Blank(row[i]) <==> forall k :: 0 <= k < |row[i]| ==> IsSpace(row[i][k]) {
      BlankMeaning(row[i]);
    }
  }

  /** A date may be written with dashes, slashes or dots; otherwise it is the canonical text. */
  lemma DateCellMeaning(s: string, date: string)
    ensures SheetPreview.ParseDateCell(s) == Some(date) <==>
            ParseDate(date).Some? && |s| == |date| == 10 && s[4] == s[7] && (s[4] == '-' || s[4] == '/' || s[4] == '.')
            && forall i :: 0 <= i < 10 && i != 4 && i != 7 ==> s[i] == date[i]
  {
    hide ParseDate;
    DateTextMeaning(s);
    DateTextMeaning(date);
    if |s| == 10 && ParseDate(date).Some? {
      if s[4] == '-' && s[7] == '-' {
        SameDate(s, s, date);
      } else if s[4] == s[7] {
        SameDate(s, SheetPreview.Dashed(s, s[4]), date);
      }
    }
    DashedIsText(s, '/');
    DashedIsText(s, '.');
  }

  lemma DashedIsText(s: string, separator: char)
    ensures |SheetPreview.Dashed(s, separator)| == 0 || |SheetPreview.Dashed(s, separator)| == 10
    ensures ParseDate("").None?
  {
    DateTextMeaning("");
  }

  /** Two texts with dashes that agree elsewhere are one. */
  lemma SameDate(s: string, dashed: string, date: string)
    requires |s| == |dashed| == |date| == 10 && dashed[4] == dashed[7] == date[4] == date[7] == '-'
    requires forall i :: 0 <= i < 10 && i != 4 && i != 7 ==> dashed[i] == s[i]
    ensures dashed == date <==> forall i :: 0 <= i < 10 && i != 4 && i != 7 ==> s[i] == date[i]
  {
  }

  /** The status column knows two words for each status, whatever their case. */
  lemma StatusMeaning(s: string, f: SheetPreview.Folding)
    ensures var word := f.upper(TrimSpace(s));
            (SheetPreview.ParseStatusCell(s, f) == Some(Working) <==> word == "工作" || word == "WORKING")
            && (SheetPreview.ParseStatusCell(s, f) == Some(Rest) <==> word == "休息" || word == "REST")
            && (SheetPreview.ParseStatusCell(s, f) == None <==>
                word != "工作" && word != "WORKING" && word != "休息" && word != "REST")
  {
    hide TrimSpace;
  }

  /** The cell for crossing midnight says no, also when empty, or yes, in four words each. */
  lemma CrossDayMeaning(s: string, f: SheetPreview.Folding)
    ensures var word := f.lower(TrimSpace(s));
            (SheetPreview.ParseBooleanCell(s, f) == Some(false) <==>
               word == "" || word == "否" || word == "false" || word == "0" || word == "no")
            && (SheetPreview.ParseBooleanCell(s, f) == Some(true) <==>
                  word == "是" || word == "true" || word == "1" || word == "yes")
  {
    hide TrimSpace;
  }

  /** A row that gives a segment: of a known shift, with the shift's times and mark, or a time
      range with the times and mark of the row. */
  ghost predicate RowSegment(s: Segment, row: seq<string>, order: nat, mappings: map<string, SheetPreview.ShiftMapping>,
      f: SheetPreview.Folding)
  {
    var text, start, end := SheetPreview.Cell(row, 2), SheetPreview.Cell(row, 3), SheetPreview.Cell(row, 4);
    s.sortOrder == order
    && if text != "" then
         f.lower(text) in mappings
         && var m := mappings[f.lower(text)];
            s.kind == Shift && s.shiftId == Some(m.id) && s.shiftName == m.name && s.shiftCode == m.code
            && s.crossDay == m.crossDay && s.originalLabel == text
            && if m.startTime.Some? && m.endTime.Some? then
                 s.startTime.Some? && s.endTime.Some?
                 && ClockText(s.startTime.value) == m.startTime.value && ClockText(s.endTime.value) == m.endTime.value
               else s.startTime == None && s.endTime == None
       else
         s.kind == TimeRange && s.shiftId == None && s.startTime.Some? && s.endTime.Some?
         && ClockText(s.startTime.value) == start && ClockText(s.endTime.value) == end
         && SheetPreview.ParseBooleanCell(SheetPreview.Cell(row, 5), f) == Some(s.crossDay)
  }

  /** What one row adds: a rest row nothing; a working row a segment of its shift or of its
      times, doubt for an unknown shift, and nothing when both columns are empty. A row that
      fills more than that is refused. */
  lemma RowMeaning(row: seq<string>, status: Status, order: nat, mappings: map<string, SheetPreview.ShiftMapping>,
      f: SheetPreview.Folding)
    ensures var text, start, end := SheetPreview.Cell(row, 2), SheetPreview.Cell(row, 3), SheetPreview.Cell(row, 4);
            var cross := SheetPreview.ParseBooleanCell(SheetPreview.Cell(row, 5), f);
            match SheetPreview.ReadRow(row, status, order, mappings, f)
            case Ok(Part(s)) => status != Rest && RowSegment(s, row, order, mappings, f)
            case Ok(Unmapped) => status != Rest && text != "" && f.lower(text) !in mappings && start == "" && end == ""
            case Ok(Nothing) => text == "" && start == "" && end == "" && cross == Some(false)
            case Err(BadCrossDay) => cross == None
            case Err(RestWithSegments) =>
              status == Rest && (text != "" || start != "" || end != "" || cross == Some(true))
            case Err(ShiftTimeConflict) => text != "" && (start != "" || end != "")
            case Err(InvalidMappedShiftTime) =>
              text != "" && f.lower(text) in mappings && BadTimes(mappings[f.lower(text)])
            case Err(InvalidTimeRange) => text == "" && (ParseClock(start) == None || ParseClock(end) == None)
            case Err(CrossDayWithoutSegment) => text == "" && start == "" && end == "" && cross == Some(true)
            case Err(_) => false
  {
    hide SheetPreview.Cell, SheetPreview.ParseBooleanCell;
  }

  ghost predicate BadTimes(m: SheetPreview.ShiftMapping) {
    m.startTime.Some? && m.endTime.Some?
    && (ParseClock(m.startTime.value) == None || ParseClock(m.endTime.value) == None)
  }

  /** What a filled row does to the days read so far: its own day is opened, or continued with
      the same status and no other note, and gains what the row adds; no other day changes. */
  lemma MergeMeaning(entries: map<string, SheetPreview.Entry>, row: seq<string>, number: nat,
      mappings: map<string, SheetPreview.ShiftMapping>, f: SheetPreview.Folding)
    requires !SheetPreview.EmptyRow(row) && SheetPreview.AddRow(entries, row, number, mappings, f).Ok?
    ensures SheetPreview.ParseDateCell(SheetPreview.Cell(row, 0)).Some?
    ensures SheetPreview.ParseStatusCell(SheetPreview.Cell(row, 1), f).Some?
    ensures var date := SheetPreview.ParseDateCell(SheetPreview.Cell(row, 0)).value;
            var status := SheetPreview.ParseStatusCell(SheetPreview.Cell(row, 1), f).value;
            var note := SheetPreview.Cell(row, 6);
            var next := SheetPreview.AddRow(entries, row, number, mappings, f).value;
            var before := if date in entries then entries[date].segments else [];
            var added := SheetPreview.ReadRow(row, status, |before|, mappings, f);
            date in next && (forall d :: d in next && d != date <==> d in entries && d != date)
            && (forall d :: d in entries && d != date ==> next[d] == entries[d])
            && next[date].status == status && added.Ok?
            && (if date in entries then
                  entries[date].status == status && next[date].note == entries[date].note
                  && (entries[date].note == "" || note == "" || entries[date].note == note)
                else next[date].note == note && next[date].row == number && next[date].date == date)
            && next[date].segments == before + (if added.value.Part? then [added.value.segment] else [])
            && (next[date].uncertain <==>
                  (date in entries && entries[date].uncertain) || added.value == SheetPreview.Unmapped)
  {
    hide SheetPreview.Cell, SheetPreview.ReadRow, SheetPreview.ParseDateCell, SheetPreview.ParseStatusCell,
         SheetPreview.EmptyRow;
  }

  /** Why a row is refused, under its number: an unreadable date, then an unknown status, then a
      day opened with another status or another note, then the error of what it adds. */
  lemma RefusalMeaning(entries: map<string, SheetPreview.Entry>, row: seq<string>, number: nat,
      mappings: map<string, SheetPreview.ShiftMapping>, f: SheetPreview.Folding)
    requires SheetPreview.AddRow(entries, row, number, mappings, f).Err?
    ensures var error := SheetPreview.AddRow(entries, row, number, mappings, f).error;
            var date := SheetPreview.ParseDateCell(SheetPreview.Cell(row, 0));
            var status := SheetPreview.ParseStatusCell(SheetPreview.Cell(row, 1), f);
            var note := SheetPreview.Cell(row, 6);
            error.0 == number
            && if date == None then error.1 == SheetPreview.BadDate
               else if status == None then error.1 == SheetPreview.BadStatus
               else
                 var before := if date.value in entries then entries[date.value].segments else [];
                 if date.value in entries
                    && (entries[date.value].status != status.value
                        || (entries[date.value].note != "" && note != "" && entries[date.value].note != note))
                 then error.1 == SheetPreview.DuplicateDateConflict
                 else SheetPreview.ReadRow(row, status.value, |before|, mappings, f) == Err(error.1)
  {
    hide SheetPreview.Cell, SheetPreview.ReadRow, SheetPreview.ParseDateCell, SheetPreview.ParseStatusCell,
         SheetPreview.EmptyRow;
  }

  /** The first row refused beside those before it, numbered as a person sees it under the
      headers, decides the error of the sheet. */
  lemma {:induction false} FirstRefusal(rows: seq<seq<string>>, mappings: map<string, SheetPreview.ShiftMapping>,
      f: SheetPreview.Folding) returns (k: nat)
    requires SheetPreview.AddRows(rows, mappings, f).Err?
    ensures k < |rows| && SheetPreview.AddRows(rows[..k], mappings, f).Ok?
    ensures SheetPreview.AddRow(SheetPreview.AddRows(rows[..k], mappings, f).value, rows[k], k + 2, mappings, f) ==
            Err(SheetPreview.AddRows(rows, mappings, f).error)
  {
    hide SheetPreview.AddRow;
    var n := |rows| - 1;
    if SheetPreview.AddRows(rows[..n], mappings, f).Err? {
      k := FirstRefusal(rows[..n], mappings, f);
      assert rows[..n][..k] == rows[..k];
    } else {
      k := n;
    }
  }

  /** The seven columns of the template, in order. */
  lemma HeaderMeaning(header: seq<string>)
    ensures SheetPreview.HeadersOk(header) <==>
            SheetPreview.Cell(header, 0) == "日期" && SheetPreview.Cell(header, 1) == "状态"
            && SheetPreview.Cell(header, 2) == "班次" && SheetPreview.Cell(header, 3) == "开始时间"
            && SheetPreview.Cell(header, 4) == "结束时间" && SheetPreview.Cell(header, 5) == "是否跨日"
            && SheetPreview.Cell(header, 6) == "备注"
  {
    hide SheetPreview.Cell;
    assert |SheetPreview.HEADERS| == 7;
  }
}
