/** From the rows of a workbook to the items of a preview. */
module SheetPreview {
  import opened Common
  import opened Calendar
  import opened DateOrder
  import opened Text
  import opened ScheduleDomain
  import opened Snapshots
  import opened Review
  import opened Preview

  const HEADERS := ["日期", "状态", "班次", "开始时间", "结束时间", "是否跨日", "备注"]

  datatype ShiftMapping = ShiftMapping(
    id: nat, name: string, code: string, startTime: Option<string>, endTime: Option<string>, crossDay: bool,
    displayColor: string)

  /** strings.ToLower and strings.ToUpper. */
  datatype Folding = Folding(lower: string -> string, upper: string -> string)

  datatype Entry = Entry(date: string, row: nat, status: Status, note: string, segments: seq<Segment>, uncertain: bool)

  datatype RowError =
    | InvalidTemplate | BadDate | BadStatus | DuplicateDateConflict | BadCrossDay | RestWithSegments
    | ShiftTimeConflict | InvalidMappedShiftTime | InvalidTimeRange | CrossDayWithoutSegment
    | InvalidDay(error: ScheduleError)

  function Cell(row: seq<string>, index: nat): string {
    if index >= |row| then "" else TrimSpace(row[index])
  }

  predicate EmptyRow(row: seq<string>) {
    forall i :: 0 <= i < |row| ==> Blank(row[i])
  }

  /** A date written with another separator, as time.Parse reads that layout. */
  function Dashed(s: string, separator: char): string {
    if |s| == 10 && s[4] == separator && s[7] == separator then s[..4] + "-" + s[5..7] + "-" + s[8..] else ""
  }

  /** parseDateCell: the canonical text of the day. */
  function ParseDateCell(s: string): (r: Option<string>)
    ensures r.Some? ==> ParseDate(r.value).Some?
  {
    if ParseDate(s).Some? then Some(s)
    else if ParseDate(Dashed(s, '/')).Some? then Some(Dashed(s, '/'))
    else if ParseDate(Dashed(s, '.')).Some? then Some(Dashed(s, '.'))
    else None
  }

  function ParseStatusCell(s: string, f: Folding): Option<Status> {
    var word := f.upper(TrimSpace(s));
    if word == "工作" || word == "WORKING" then Some(Working)
    else if word == "休息" || word == "REST" then Some(Rest)
    else None
  }

  function ParseBooleanCell(s: string, f: Folding): Option<bool> {
    var word := f.lower(TrimSpace(s));
    if word in {"", "否", "false", "0", "no"} then Some(false)
    else if word in {"是", "true", "1", "yes"} then Some(true)
    else None
  }

  /** What one row adds to its day. */
  datatype Addition = Nothing | Unmapped | Part(segment: Segment)

  function MappedSegment(m: ShiftMapping, text: string, order: nat): Result<Segment, RowError> {
    var plain := Segment(0, Shift, Some(m.id), m.name, m.code, None, None, m.crossDay, m.displayColor, order, text);
    if m.startTime.Some? && m.endTime.Some? then
      if ParseClock(m.startTime.value).None? || ParseClock(m.endTime.value).None? then Err(InvalidMappedShiftTime)
      else Ok(plain.(startTime := ParseClock(m.startTime.value), endTime := ParseClock(m.endTime.value)))
    else Ok(plain)
  }

  /** The part of the row loop below the status column. */
  function ReadRow(row: seq<string>, status: Status, order: nat, mappings: map<string, ShiftMapping>, f: Folding)
    : Result<Addition, RowError>
  {
    var text, start, end := Cell(row, 2), Cell(row, 3), Cell(row, 4);
    var crossDay := ParseBooleanCell(Cell(row, 5), f);
    if crossDay.None? then Err(BadCrossDay)
    else if status.Rest? then
      if text != "" || start != "" || end != "" || crossDay.value then Err(RestWithSegments) else Ok(Nothing)
    else if text != "" && (start != "" || end != "") then Err(ShiftTimeConflict)
    else if text != "" then
      if f.lower(text) !in mappings then Ok(Unmapped)
      else match MappedSegment(mappings[f.lower(text)], text, order)
        case Err(e) => Err(e)
        case Ok(segment) => Ok(Part(segment))
    else if start != "" || end != "" then
      if ParseClock(start).None? || ParseClock(end).None? then Err(InvalidTimeRange)
      else Ok(Part(Segment(0, TimeRange, None, "", "", ParseClock(start), ParseClock(end), crossDay.value, "",
                           order, "")))
    else if crossDay.value then Err(CrossDayWithoutSegment)
    else Ok(Nothing)
  }

  /** The day a row speaks of. */
  function RowDate(row: seq<string>): Option<string> {
    if EmptyRow(row) then None else ParseDateCell(Cell(row, 0))
  }

  predicate Disagrees(e: Entry, status: Status, note: string) {
    e.status != status || (e.note != "" && note != "" && e.note != note)
  }

  function Add(e: Entry, addition: Addition): Entry {
    match addition
    case Nothing => e
    case Unmapped => e.(uncertain := true)
    case Part(segment) => e.(segments := e.segments + [segment])
  }

  /** The entry a row continues or opens. */
  function EntryFor(entries: map<string, Entry>, date: string, number: nat, status: Status, note: string): Entry {
    if date in entries then entries[date] else Entry(date, number, status, note, [], false)
  }

  /** One turn of the row loop; `number` is the row as the user sees it. */
  function AddRow(entries: map<string, Entry>, row: seq<string>, number: nat, mappings: map<string, ShiftMapping>,
      f: Folding)
    : Result<map<string, Entry>, (nat, RowError)>
  {
    if EmptyRow(row) then Ok(entries)
    else
      var date, status, note := ParseDateCell(Cell(row, 0)), ParseStatusCell(Cell(row, 1), f), Cell(row, 6);
      if date.None? then Err((number, BadDate))
      else if status.None? then Err((number, BadStatus))
      else if date.value in entries && Disagrees(entries[date.value], status.value, note) then
        Err((number, DuplicateDateConflict))
      else
        var entry := EntryFor(entries, date.value, number, status.value, note);
        match ReadRow(row, status.value, |entry.segments|, mappings, f)
        case Err(e) => Err((number, e))
        case Ok(addition) => Ok(entries[date.value := Add(entry, addition)])
  }

  function AddRows(rows: seq<seq<string>>, mappings: map<string, ShiftMapping>, f: Folding)
    : Result<map<string, Entry>, (nat, RowError)>
  {
    if rows == [] then Ok(map[])
    else match AddRows(rows[..|rows| - 1], mappings, f)
      case Err(e) => Err(e)
      case Ok(entries) => AddRow(entries, rows[|rows| - 1], |rows| + 1, mappings, f)
  }

  predicate HeadersOk(header: seq<string>) {
    forall i :: 0 <= i < |HEADERS| ==> Cell(header, i) == HEADERS[i]
  }

  ghost predicate EntryValid(e: Entry) {
    DayError(e.date, e.status, e.segments).None?
  }

  function EntryDate(e: Entry): string {
    e.date
  }

  /** Segments as the row loop makes them: numbered in order, without a row identity, with
      both times or none. */
  ghost predicate Fresh(segments: seq<Segment>) {
    forall i :: 0 <= i < |segments| ==> segments[i].sortOrder == i && PlainSegment(segments[i])
  }

  ghost predicate EntriesFresh(entries: map<string, Entry>) {
    forall d :: d in entries ==> entries[d].date == d && ParseDate(d).Some? && Fresh(entries[d].segments)
  }

  lemma ReadRowFresh(row: seq<string>, status: Status, order: nat, mappings: map<string, ShiftMapping>, f: Folding)
    ensures ReadRow(row, status, order, mappings, f).Ok? && ReadRow(row, status, order, mappings, f).value.Part? ==>
              var s := ReadRow(row, status, order, mappings, f).value.segment;
              s.sortOrder == order && PlainSegment(s)
  {
    hide ParseClock, TrimSpace;
  }

  /** One more addition, numbered after what is there. */
  lemma AddKeepsFresh(e: Entry, addition: Addition)
    requires Fresh(e.segments)
    requires addition.Part? ==> addition.segment.sortOrder == |e.segments| && PlainSegment(addition.segment)
    ensures Fresh(Add(e, addition).segments) && Add(e, addition).date == e.date
  {
  }

  lemma UpdateKeepsFresh(entries: map<string, Entry>, e: Entry)
    requires EntriesFresh(entries) && ParseDate(e.date).Some? && Fresh(e.segments)
    ensures EntriesFresh(entries[e.date := e])
  {
    hide ParseDate, Fresh;
  }

  lemma EntryForFresh(entries: map<string, Entry>, date: string, number: nat, status: Status, note: string)
    requires EntriesFresh(entries)
    ensures Fresh(EntryFor(entries, date, number, status, note).segments)
    ensures EntryFor(entries, date, number, status, note).date == date
  {
    hide ParseDate;
  }

  lemma AddRowFresh(entries: map<string, Entry>, row: seq<string>, number: nat, mappings: map<string, ShiftMapping>,
      f: Folding)
    requires EntriesFresh(entries) && AddRow(entries, row, number, mappings, f).Ok?
    ensures EntriesFresh(AddRow(entries, row, number, mappings, f).value)
  {
    hide ReadRow, ParseDate, ParseDateCell, ParseStatusCell, EmptyRow, Cell, Fresh, Add, EntryFor, EntriesFresh;
    if !EmptyRow(row) {
      var date, status := ParseDateCell(Cell(row, 0)).value, ParseStatusCell(Cell(row, 1), f).value;
      var entry := EntryFor(entries, date, number, status, Cell(row, 6));
      EntryForFresh(entries, date, number, status, Cell(row, 6));
      ReadRowFresh(row, status, |entry.segments|, mappings, f);
      var addition := ReadRow(row, status, |entry.segments|, mappings, f).value;
      AddKeepsFresh(entry, addition);
      UpdateKeepsFresh(entries, Add(entry, addition));
    }
  }

  lemma {:induction false} AddRowsFresh(rows: seq<seq<string>>, mappings: map<string, ShiftMapping>, f: Folding)
    requires AddRows(rows, mappings, f).Ok?
    ensures EntriesFresh(AddRows(rows, mappings, f).value)
  {
    hide AddRow;
    if rows != [] {
      AddRowsFresh(rows[..|rows| - 1], mappings, f);
      AddRowFresh(AddRows(rows[..|rows| - 1], mappings, f).value, rows[|rows| - 1], |rows| + 1, mappings, f);
    }
  }

  /** The row loop. */
  method MergeRows(rows: seq<seq<string>>, mappings: map<string, ShiftMapping>, f: Folding)
    returns (result: Result<map<string, Entry>, (nat, RowError)>)
    ensures result == AddRows(rows, mappings, f)
  {
    hide AddRow;
    var entries: map<string, Entry> := map[];
    for index := 0 to |rows|
      invariant AddRows(rows[..index], mappings, f) == Ok(entries)
    {
      assert rows[..index + 1][..index] == rows[..index];
      var next := AddRow(entries, rows[index], index + 2, mappings, f);
      if next.Err? {
        AddRowsStops(rows, index + 1, mappings, f);
        return next;
      }
      entries := next.value;
    }
    assert rows[..|rows|] == rows;
    return Ok(entries);
  }

  /** The first row that fails decides. */
  lemma {:induction false} AddRowsStops(rows: seq<seq<string>>, n: nat, mappings: map<string, ShiftMapping>, f: Folding)
    requires n <= |rows| && AddRows(rows[..n], mappings, f).Err?
    ensures AddRows(rows, mappings, f) == AddRows(rows[..n], mappings, f)
  {
    hide AddRow;
    if n < |rows| {
      assert rows[..|rows| - 1][..n] == rows[..n];
      AddRowsStops(rows[..|rows| - 1], n, mappings, f);
    } else {
      assert rows[..n] == rows;
    }
  }

  /** What a preview may rely on: dated, in order, each day valid and as the rows made it. */
  ghost predicate Usable(entries: seq<Entry>) {
    AllDated(entries, EntryDate) && InDateOrder(entries, EntryDate)
    && forall e :: e in entries ==> EntryValid(e) && Fresh(e.segments)
  }

  /** The entries of the dates taken out of the map so far. */
  ghost predicate Taken(entries: map<string, Entry>, remaining: set<string>, found: seq<Entry>) {
    (forall e :: e in found <==> e.date in entries && e.date !in remaining && e == entries[e.date])
    && OnePerDate(found, EntryDate)
  }

  lemma TakeOne(entries: map<string, Entry>, remaining: set<string>, found: seq<Entry>, date: string)
    requires EntriesFresh(entries) && Taken(entries, remaining, found) && date in remaining && date in entries
    ensures Taken(entries, remaining - {date}, found + [entries[date]])
  {
    hide Fresh, ParseDate;
    var next := found + [entries[date]];
    forall e ensures e in next <==> e.date in entries && e.date !in remaining - {date} && e == entries[e.date] {
      assert e in next <==> e in found || e == entries[date];
    }
    forall i | 0 <= i < |found| ensures EntryDate(found[i]) != date {
      assert found[i] in found;
    }
  }

  lemma SortedIsUsable(entries: map<string, Entry>, found: seq<Entry>)
    requires EntriesFresh(entries) && Taken(entries, {}, found) && forall d :: d in entries ==> EntryValid(entries[d])
    ensures Usable(ByDate(found, EntryDate))
    ensures forall e :: e in ByDate(found, EntryDate) <==> e.date in entries && e == entries[e.date]
  {
    hide Fresh, EntryValid, ParseDate, InDateOrder;
    ByDateOrders(found, EntryDate);
  }

  /** The error of a merged day that is not valid, with the row that opened the day. */
  ghost predicate DayFault(entries: map<string, Entry>, error: (nat, RowError)) {
    exists d :: d in entries && FaultyDay(entries[d], error)
  }

  ghost predicate FaultyDay(e: Entry, error: (nat, RowError)) {
    DayError(e.date, e.status, e.segments).Some?
    && error == (e.row, InvalidDay(DayError(e.date, e.status, e.segments).value))
  }

  /** Every day taken out so far is valid. */
  ghost predicate AllValid(entries: map<string, Entry>, remaining: set<string>) {
    forall d :: d in entries && d !in remaining ==> EntryValid(entries[d])
  }

  lemma NothingTaken(entries: map<string, Entry>)
    ensures Taken(entries, entries.Keys, []) && AllValid(entries, entries.Keys)
  {
  }

  lemma OneMoreValid(entries: map<string, Entry>, remaining: set<string>, date: string)
    requires date in entries && date in remaining
    ensures if EntryValid(entries[date]) then AllValid(entries, remaining) ==> AllValid(entries, remaining - {date})
            else !AllValid(entries, {})
  {
    hide EntryValid;
  }

  method ValidateEntry(e: Entry) returns (error: Option<ScheduleError>)
    ensures error.None? <==> EntryValid(e)
    ensures error.Some? ==> FaultyDay(e, (e.row, InvalidDay(error.value)))
  {
    hide DayError;
    error := ValidateDay(e.date, e.status, e.segments);
  }

  /** Every merged day is validated, in whatever order the map yields them. */
  method TakeEntries(entries: map<string, Entry>) returns (found: seq<Entry>, error: Option<(nat, RowError)>)
    requires EntriesFresh(entries)
    ensures error.None? <==> AllValid(entries, {})
    ensures error.None? ==> Taken(entries, {}, found)
    ensures error.Some? ==> DayFault(entries, error.value)
  {
    hide EntryValid, EntriesFresh, Taken, AllValid, FaultyDay;
    found, error := [], None;
    var remaining := entries.Keys;
    NothingTaken(entries);
    while remaining != {}
      invariant remaining <= entries.Keys
      invariant Taken(entries, remaining, found) && AllValid(entries, remaining)
      decreases |remaining|
    {
      var date :| date in remaining;
      var entry := entries[date];
      var invalid := ValidateEntry(entry);
      OneMoreValid(entries, remaining, date);
      if invalid.Some? {
        error := Some((entry.row, InvalidDay(invalid.value)));
        return;
      }
      TakeOne(entries, remaining, found, date);
      remaining := remaining - {date};
      found := found + [entry];
    }
  }

  /** The validated days, sorted by date. */
  method ValidateEntries(entries: map<string, Entry>) returns (result: Result<seq<Entry>, (nat, RowError)>)
    requires EntriesFresh(entries)
    ensures result.Ok? ==>
              Usable(result.value)
              && (forall e :: e in result.value <==> e.date in entries && e == entries[e.date])
    ensures result.Ok? <==> forall d :: d in entries ==> EntryValid(entries[d])
    ensures result.Err? ==> DayFault(entries, result.error)
  {
    hide EntryValid, EntriesFresh, Taken, Usable, ByDate, DayFault;
    var found, error := TakeEntries(entries);
    if error.Some? {
      return Err(error.value);
    }
    SortedIsUsable(entries, found);
    return Ok(ByDate(found, EntryDate));
  }

  /** Normalize: the rows merged by date, every merged day validated, in date order. The headers
      are looked at first, then the rows one by one, then the merged days. */
  method Normalize(rows: seq<seq<string>>, mappings: map<string, ShiftMapping>, f: Folding)
    returns (result: Result<seq<Entry>, (nat, RowError)>)
    ensures result.Ok? <==>
              |rows| >= 2 && HeadersOk(rows[0]) && AddRows(rows[1..], mappings, f).Ok?
              && forall d :: d in AddRows(rows[1..], mappings, f).value ==>
                  EntryValid(AddRows(rows[1..], mappings, f).value[d])
    ensures result.Ok? ==>
              Usable(result.value)
              && forall e :: e in result.value <==>
                   e.date in AddRows(rows[1..], mappings, f).value && e == AddRows(rows[1..], mappings, f).value[e.date]
    ensures |rows| < 2 || !HeadersOk(rows[0]) ==> result == Err((0, InvalidTemplate))
    ensures |rows| >= 2 && HeadersOk(rows[0]) && AddRows(rows[1..], mappings, f).Err? ==>
              result == Err(AddRows(rows[1..], mappings, f).error)
    ensures |rows| >= 2 && HeadersOk(rows[0]) && AddRows(rows[1..], mappings, f).Ok? && result.Err? ==>
              DayFault(AddRows(rows[1..], mappings, f).value, result.error)
  {
    hide DayFault, AddRows, EntryValid, Cell, EntriesFresh, Usable;
    if |rows| < 2 {
      return Err((0, InvalidTemplate));
    }
    for i := 0 to |HEADERS|
      invariant forall k :: 0 <= k < i ==> Cell(rows[0], k) == HEADERS[k]
    {
      if Cell(rows[0], i) != HEADERS[i] {
        return Err((0, InvalidTemplate));
      }
    }
    var merged := MergeRows(rows[1..], mappings, f);
    if merged.Err? {
      return Err(merged.error);
    }
    AddRowsFresh(rows[1..], mappings, f);
    result := ValidateEntries(merged.value);
  }

  // ----- what merging means

  /** Row k of the sheet body speaks of the date. */
  predicate Speaks(rows: seq<seq<string>>, k: nat, date: string) {
    k < |rows| && RowDate(rows[k]) == Some(date)
  }

  /** Row k names a shift nobody knows. */
  predicate UnknownShift(rows: seq<seq<string>>, k: nat, mappings: map<string, ShiftMapping>, f: Folding) {
    k < |rows| && ParseStatusCell(Cell(rows[k], 1), f) == Some(Working) && Cell(rows[k], 2) != ""
    && f.lower(Cell(rows[k], 2)) !in mappings
  }

  ghost predicate Covered(rows: seq<seq<string>>, date: string) {
    exists k :: Speaks(rows, k, date)
  }

  ghost predicate SomeUnknown(rows: seq<seq<string>>, date: string, mappings: map<string, ShiftMapping>, f: Folding) {
    exists k :: Speaks(rows, k, date) && UnknownShift(rows, k, mappings, f)
  }

  lemma CoveredGrows(rows: seq<seq<string>>, row: seq<string>, date: string, mappings: map<string, ShiftMapping>,
      f: Folding)
    ensures Covered(rows + [row], date) <==> Covered(rows, date) || RowDate(row) == Some(date)
    ensures SomeUnknown(rows + [row], date, mappings, f) <==>
            SomeUnknown(rows, date, mappings, f) || (RowDate(row) == Some(date) && UnknownShift([row], 0, mappings, f))
  {
    hide RowDate, ParseStatusCell, Cell;
    var all := rows + [row];
    assert forall k: nat :: k < |rows| ==> all[k] == rows[k];
    assert all[|rows|] == row;
    if Covered(rows, date) {
      var k :| Speaks(rows, k, date);
      assert Speaks(all, k, date);
    }
    if RowDate(row) == Some(date) {
      assert Speaks(all, |rows|, date);
      assert UnknownShift(all, |rows|, mappings, f) <==> UnknownShift([row], 0, mappings, f);
    }
    if SomeUnknown(rows, date, mappings, f) {
      var k :| Speaks(rows, k, date) && UnknownShift(rows, k, mappings, f);
      assert Speaks(all, k, date) && UnknownShift(all, k, mappings, f);
    }
    if Covered(all, date) {
      var k: nat :| Speaks(all, k, date);
      assert k < |rows| ==> Speaks(rows, k, date);
    }
    if SomeUnknown(all, date, mappings, f) {
      var k: nat :| Speaks(all, k, date) && UnknownShift(all, k, mappings, f);
      assert k < |rows| ==> Speaks(rows, k, date) && UnknownShift(rows, k, mappings, f);
    }
  }

  lemma AddRowMeans(entries: map<string, Entry>, row: seq<string>, number: nat, mappings: map<string, ShiftMapping>,
      f: Folding, date: string)
    requires AddRow(entries, row, number, mappings, f).Ok?
    ensures var next := AddRow(entries, row, number, mappings, f).value;
            (date in next <==> date in entries || RowDate(row) == Some(date))
            && (date in next ==>
                  (next[date].uncertain <==>
                     (date in entries && entries[date].uncertain)
                     || (RowDate(row) == Some(date) && UnknownShift([row], 0, mappings, f))))
  {
    hide ParseDateCell, Cell, EmptyRow, ParseClock, DayError;
  }

  /** A date has an entry exactly when some row speaks of it, and the entry is uncertain exactly
      when one of its rows names an unknown shift. */
  lemma {:induction false} MergedMeans(rows: seq<seq<string>>, mappings: map<string, ShiftMapping>, f: Folding,
      date: string)
    requires AddRows(rows, mappings, f).Ok?
    ensures date in AddRows(rows, mappings, f).value <==> Covered(rows, date)
    ensures date in AddRows(rows, mappings, f).value ==>
              (AddRows(rows, mappings, f).value[date].uncertain <==> SomeUnknown(rows, date, mappings, f))
  {
    if rows == [] {
      assert !Covered(rows, date);
    } else {
      hide AddRow, Speaks, UnknownShift, RowDate;
      var init, row := rows[..|rows| - 1], rows[|rows| - 1];
      MergedMeans(init, mappings, f, date);
      AddRowMeans(AddRows(init, mappings, f).value, row, |rows| + 1, mappings, f, date);
      assert rows == init + [row];
      CoveredGrows(init, row, date, mappings, f);
      if date !in AddRows(init, mappings, f).value {
        UnknownIsCovered(init, date, mappings, f);
      }
    }
  }

  lemma UnknownIsCovered(rows: seq<seq<string>>, date: string, mappings: map<string, ShiftMapping>, f: Folding)
    ensures SomeUnknown(rows, date, mappings, f) ==> Covered(rows, date)
  {
  }

  // ----- the preview

  /** storedFromEntry. */
  function DraftOf(e: Entry): StoredSchedule
    requires StartsHaveEnds(e.segments)
  {
    StoredFromDay(Day(Content(e.status, NoSource, None, e.note, e.segments), 0))
  }

  lemma FreshHasEnds(segments: seq<Segment>)
    requires Fresh(segments)
    ensures StartsHaveEnds(segments) && Ordered(segments)
  {
  }

  function SheetItem(e: Option<Entry>, existing: map<string, Existing>, date: string, id: nat): Item
    requires e.Some? ==> StartsHaveEnds(e.value.segments)
  {
    if e.None? then Item(id, date, Missing, None, None, None, None)
    else
      var prior := Lookup(existing, date);
      Item(id, date, if e.value.uncertain then Uncertain else Classify(DraftOf(e.value), prior), Some(DraftOf(e.value)),
           if prior.Some? then Some(prior.value.id) else None,
           if prior.Some? then Some(prior.value.version) else None, None)
  }

  function FindEntry(entries: seq<Entry>, date: string): Option<Entry> {
    if entries == [] then None
    else if entries[|entries| - 1].date == date then Some(entries[|entries| - 1])
    else FindEntry(entries[..|entries| - 1], date)
  }

  lemma {:induction false} FoundIsMember(entries: seq<Entry>, date: string)
    ensures FindEntry(entries, date).Some? ==>
              FindEntry(entries, date).value in entries && FindEntry(entries, date).value.date == date
    ensures FindEntry(entries, date).None? ==> forall e :: e in entries ==> e.date != date
  {
    if entries != [] && entries[|entries| - 1].date != date {
      FoundIsMember(entries[..|entries| - 1], date);
    }
  }

  datatype UploadError = DateOutOfRange | BadPeriod

  method CheckRange(entries: seq<Entry>, start: string, end: string) returns (ok: bool)
    ensures ok <==> forall e :: e in entries ==> WithinPeriod(e.date, start, end)
  {
    hide LexLess;
    for k := 0 to |entries|
      invariant forall j :: 0 <= j < k ==> WithinPeriod(entries[j].date, start, end)
    {
      if LexLess(entries[k].date, start) || LexLess(end, entries[k].date) {
        assert entries[k] in entries && !WithinPeriod(entries[k].date, start, end);
        return false;
      }
    }
    return true;
  }

  method BuildSheetItem(entries: seq<Entry>, existing: map<string, Existing>, date: string,
      id: nat) returns (item: Item)
    requires Usable(entries)
    ensures item.date == date && ItemFits(item, entries, existing, id)
    ensures item.kind != Invalid
  {
    hide ParseDate, DayNumber, SchedulesEquivalent, StoredFromDay, InDateOrder, EntryValid, Fresh, StartsHaveEnds;
    FoundIsMember(entries, date);
    var entry := FindEntry(entries, date);
    if entry.None? {
      return Item(id, date, Missing, None, None, None, None);
    }
    FreshHasEnds(entry.value.segments);
    var draft := DraftOf(entry.value);
    var kind := New;
    var anchorId, anchorVersion: Option<nat> := None, None;
    if date in existing {
      anchorId, anchorVersion := Some(existing[date].id), Some(existing[date].version);
    }
    if entry.value.uncertain {
      kind := Uncertain;
    } else if date in existing {
      kind := if SchedulesEquivalent(draft, existing[date].snapshot) then Same else Conflict;
    }
    return Item(id, date, kind, Some(draft), anchorId, anchorVersion, None);
  }

  /** The checks and the preview loop of createImport: the period first, then the dates of the
      workbook, then one item a day. */
  method BuildSheetItems(entries: seq<Entry>, existing: map<string, Existing>, start: string, end: string)
    returns (result: Result<PreviewResult, UploadError>)
    requires Usable(entries)
    ensures result.Ok? ==>
              CoversPeriod(result.value.items, start, end) && CountsAgree(result.value)
              && (forall e :: e in entries ==> WithinPeriod(e.date, start, end))
              && forall i :: 0 <= i < |result.value.items| ==>
                   ItemFits(result.value.items[i], entries, existing, i)
    ensures result == Err(BadPeriod) <==> !PeriodFits(start, end)
    ensures result == Err(DateOutOfRange) <==>
              PeriodFits(start, end) && exists e :: e in entries && !WithinPeriod(e.date, start, end)
  {
    hide ParseDate, LexLess, DayNumber, IsDay, Usable, ItemFits, WithinPeriod;
    var dates := DatesBetween(start, end);
    if dates.None? || |dates.value| > 366 {
      return Err(BadPeriod);
    }
    var inRange := CheckRange(entries, start, end);
    if !inRange {
      return Err(DateOutOfRange);
    }
    var items: seq<Item> := [];
    var conflicts, invalids := 0, 0;
    for index := 0 to |dates.value|
      invariant |items| == index && conflicts == CountKinds(items, {Conflict})
                && invalids == CountKinds(items, {Invalid, Uncertain})
      invariant forall i :: 0 <= i < index ==>
                  items[i].date == dates.value[i] && ItemFits(items[i], entries, existing, i)
    {
      var date := dates.value[index];
      var item := BuildSheetItem(entries, existing, date, index);
      if item.kind == Conflict {
        conflicts := conflicts + 1;
      }
      if item.kind == Uncertain {
        invalids := invalids + 1;
      }
      CountOneMore(items, item, {Conflict});
      CountOneMore(items, item, {Invalid, Uncertain});
      items := items + [item];
    }
    return Ok(PreviewResult(items, |dates.value|, conflicts, invalids));
  }

  ghost predicate ItemFits(item: Item, entries: seq<Entry>, existing: map<string, Existing>, id: nat) {
    (FindEntry(entries, item.date).Some? ==> StartsHaveEnds(FindEntry(entries, item.date).value.segments))
    && item == SheetItem(FindEntry(entries, item.date), existing, item.date, id)
  }

  /** Whatever a workbook previews as NEW, SAME or CONFLICT is accepted when the commit rebuilds
      it: the snapshot brings back the very segments that were validated. */
  lemma SheetItemsCommit(item: Item, entries: seq<Entry>, existing: map<string, Existing>, id: nat)
    requires Usable(entries) && ItemFits(item, entries, existing, id) && TrustedKind(item.kind)
    ensures item.draft.Some? && CommitVerdict(item).None?
  {
    hide DayError, SchedulesEquivalent, StoredFromDay, InDateOrder, DayFromStored;
    var e := FindEntry(entries, item.date).value;
    FoundIsMember(entries, item.date);
    FreshHasEnds(e.segments);
    CanonicalRoundTrip(Day(Content(e.status, NoSource, None, e.note, e.segments), 0));
  }
}
