/** The contract every recognised draft must meet before a preview is built from it. */
module DraftSchema {
  import opened Common
  import opened Calendar
  import opened RuleLanguage
  import opened RuleExpansion

  datatype DraftError =
    | InvalidDraftPeriod | PeriodExceedsRequest | EntriesUnbounded | EntryOutOfRange | EntrySegmentsMissing
    | DuplicateDate | InvalidEntryStatus | UncertainWithoutIssue | InvalidSegmentType

  predicate SegmentTypeOk(s: RawSegment) {
    s.kind == "SHIFT" || s.kind == "TIME_RANGE"
  }

  predicate SegmentTypesOk(segments: seq<RawSegment>) {
    forall i :: 0 <= i < |segments| ==> SegmentTypeOk(segments[i])
  }

  predicate DatedInRange(e: Entry, start: string, end: string) {
    ParseDate(e.date).Some? && WithinPeriod(e.date, start, end) && e.segments.Present?
  }

  predicate ContentOk(e: Entry) {
    StatusOk(e.status) && (e.uncertain ==> e.issues != []) && SegmentTypesOk(e.segments.Items())
  }

  predicate EntryOk(e: Entry, start: string, end: string) {
    DatedInRange(e, start, end) && ContentOk(e)
  }

  predicate PeriodOk(d: Draft, start: string, end: string) {
    ParseDate(d.periodStart).Some? && ParseDate(d.periodEnd).Some? && !LexLess(d.periodEnd, d.periodStart)
    && !LexLess(d.periodStart, start) && !LexLess(end, d.periodEnd)
  }

  ghost predicate DatesDistinct(entries: seq<Entry>) {
    forall i, j :: 0 <= i < j < |entries| ==> entries[i].date != entries[j].date
  }

  ghost predicate DraftOk(d: Draft, start: string, end: string) {
    PeriodOk(d, start, end) && d.entries.Present? && |d.entries.Items()| <= 366
    && (forall i :: 0 <= i < |d.entries.Items()| ==> EntryOk(d.entries.Items()[i], start, end))
    && DatesDistinct(d.entries.Items())
  }

  /** The error of an entry's content: its parts are looked at in this order. */
  predicate ContentFault(e: Entry, error: DraftError) {
    if !StatusOk(e.status) then error == InvalidEntryStatus
    else if e.uncertain && e.issues == [] then error == UncertainWithoutIssue
    else !SegmentTypesOk(e.segments.Items()) && error == InvalidSegmentType
  }

  /** The i-th entry is the first that is not acceptable beside those before it. */
  ghost predicate FirstEntryFault(entries: seq<Entry>, start: string, end: string, i: nat, error: DraftError)
    requires i < |entries|
  {
    (forall k :: 0 <= k < i ==> EntryOk(entries[k], start, end)) && DatesDistinct(entries[..i])
    && if ParseDate(entries[i].date).None? || !WithinPeriod(entries[i].date, start, end) then error == EntryOutOfRange
       else if entries[i].segments.Absent? then error == EntrySegmentsMissing
       else if exists k :: 0 <= k < i && entries[k].date == entries[i].date then error == DuplicateDate
       else ContentFault(entries[i], error)
  }

  method CheckSegmentTypes(segments: seq<RawSegment>) returns (ok: bool)
    ensures ok <==> SegmentTypesOk(segments)
  {
    for k := 0 to |segments|
      invariant forall j :: 0 <= j < k ==> SegmentTypeOk(segments[j])
    {
      if segments[k].kind != "SHIFT" && segments[k].kind != "TIME_RANGE" {
        return false;
      }
    }
    return true;
  }

  method CheckContent(e: Entry) returns (error: Option<DraftError>)
    ensures error.None? <==> ContentOk(e)
    ensures error.Some? ==> ContentFault(e, error.value)
  {
    if !StatusOk(e.status) {
      return Some(InvalidEntryStatus);
    }
    if e.uncertain && e.issues == [] {
      return Some(UncertainWithoutIssue);
    }
    var typesOk := CheckSegmentTypes(e.segments.Items());
    return if typesOk then None else Some(InvalidSegmentType);
  }

  lemma EntryParts(e: Entry, start: string, end: string)
    ensures EntryOk(e, start, end) <==>
            ParseDate(e.date).Some? && WithinPeriod(e.date, start, end) && e.segments.Present? && ContentOk(e)
  {
    hide ParseDate, WithinPeriod, ContentOk;
  }

  /** The loop of Draft.Validate with its `seen` map. */
  method CheckEntries(entries: seq<Entry>, start: string, end: string) returns (error: Option<DraftError>)
    ensures error.None? <==>
            (forall i :: 0 <= i < |entries| ==> EntryOk(entries[i], start, end)) && DatesDistinct(entries)
    ensures error.Some? ==> exists i :: 0 <= i < |entries| && FirstEntryFault(entries, start, end, i, error.value)
  {
    hide ParseDate, LexLess, ContentOk, ContentFault, WithinPeriod, EntryOk;
    var seen: set<string> := {};
    for i := 0 to |entries|
      invariant seen == set k | 0 <= k < i :: entries[k].date
      invariant forall k :: 0 <= k < i ==> EntryOk(entries[k], start, end)
      invariant forall j, k :: 0 <= j < k < i ==> entries[j].date != entries[k].date
    {
      var e := entries[i];
      EntryParts(e, start, end);
      if ParseDate(e.date).None? || !WithinPeriod(e.date, start, end) {
        assert FirstEntryFault(entries, start, end, i, EntryOutOfRange);
        return Some(EntryOutOfRange);
      }
      if e.segments.Absent? {
        assert FirstEntryFault(entries, start, end, i, EntrySegmentsMissing);
        return Some(EntrySegmentsMissing);
      }
      if e.date in seen {
        assert FirstEntryFault(entries, start, end, i, DuplicateDate);
        return Some(DuplicateDate);
      }
      seen := seen + {e.date};
      error := CheckContent(e);
      if error.Some? {
        assert FirstEntryFault(entries, start, end, i, error.value);
        return;
      }
    }
    return None;
  }

  /** Draft.Validate: the period is looked at first, then the number of entries, then the
      entries one by one. */
  method ValidateDraft(d: Draft, start: string, end: string) returns (error: Option<DraftError>)
    ensures error.None? <==> DraftOk(d, start, end)
    ensures error.Some? ==>
              if ParseDate(d.periodStart).None? || ParseDate(d.periodEnd).None? || LexLess(d.periodEnd, d.periodStart)
              then error.value == InvalidDraftPeriod
              else if !PeriodOk(d, start, end) then error.value == PeriodExceedsRequest
              else if d.entries.Absent? || |d.entries.Items()| > 366 then error.value == EntriesUnbounded
              else exists i ::
                     0 <= i < |d.entries.Items()| && FirstEntryFault(d.entries.Items(), start, end, i, error.value)
  {
    hide ParseDate, LexLess;
    if ParseDate(d.periodStart).None? || ParseDate(d.periodEnd).None? || LexLess(d.periodEnd, d.periodStart) {
      return Some(InvalidDraftPeriod);
    }
    if LexLess(d.periodStart, start) || LexLess(end, d.periodEnd) {
      return Some(PeriodExceedsRequest);
    }
    if d.entries.Absent? || |d.entries.Items()| > 366 {
      return Some(EntriesUnbounded);
    }
    error := CheckEntries(d.entries.Items(), start, end);
  }

  /** Everything Draft.Validate asks of an expanded entry, other than segment types, is
      already true of it. */
  lemma ExpandedEntryOk(s: RuleSet, start: string, end: string, draft: Draft, i: nat)
    requires ParseDate(start).Some? && ParseDate(end).Some? && Expandable(s, start, end)
    requires IsExpansion(s, start, end, draft) && i < |draft.entries.Items()|
    ensures EntryOk(draft.entries.Items()[i], start, end) <==> SegmentTypesOk(draft.entries.Items()[i].segments.Items())
    ensures exists r :: r in s.rules.Items() && draft.entries.Items()[i].segments == r.segments
  {
    hide ActiveRules, ConflictIssues, RuleIds, Format, Nth, Matches, DayNumber, LexLess, EntriesBefore, SegmentTypesOk;
    var entries, rules := draft.entries.Items(), s.rules.Items();
    var first, last := ParseDate(start).value, ParseDate(end).value;
    var k := EntriesHoldDays(rules, first, ExpansionDays(first, last), i);
    NthNumber(first, k);
    ParseUndoesFormat(Nth(first, k));
    ExpansionIsExact(s, start, end, draft, entries[i].date);
    assert entries[i] in entries;
    var day := ParseDate(entries[i].date).value;
    var active := ActiveRules(rules, day);
    CertainMeansAgreement(active, entries[i].date);
    ActiveMeaning(rules, day, active[0]);
    assert active[0] in active;
    var m :| 0 <= m < |rules| && rules[m] == active[0];
    assert RuleOk(rules[m], start, end);
  }

  /** Of all that Draft.Validate asks, segment types alone are open. */
  lemma OnlyTypesOpen(s: RuleSet, start: string, end: string, draft: Draft)
    requires ParseDate(start).Some? && ParseDate(end).Some? && Expandable(s, start, end)
    requires IsExpansion(s, start, end, draft)
    ensures DraftOk(draft, start, end) <==>
            forall i :: 0 <= i < |draft.entries.Items()| ==> SegmentTypesOk(draft.entries.Items()[i].segments.Items())
  {
    hide ActiveRules, EntryOf, Format, Nth, DayNumber, LexLess, EntriesBefore, SegmentTypesOk, EntryOk, ParseDate;
    var entries := draft.entries.Items();
    var first, last := ParseDate(start).value, ParseDate(end).value;
    EntriesAscend(s.rules.Items(), first, ExpansionDays(first, last));
    TextOrderIsDayOrder(first, first);
    TextOrderIsDayOrder(last, last);
    TextOrderIsDayOrder(last, first);
    forall i | 0 <= i < |entries|
      ensures EntryOk(entries[i], start, end) <==> SegmentTypesOk(entries[i].segments.Items())
    {
      ExpandedEntryOk(s, start, end, draft, i);
    }
    forall i, j | 0 <= i < j < |entries| ensures entries[i].date != entries[j].date {
      NotBelowItself(entries[i].date);
    }
  }

  /** The first rule active on the day, whose segments its entry takes over, has known types. */
  ghost predicate LeadsWithKnownTypes(rules: seq<Rule>, date: string)
    requires ParseDate(date).Some? && CyclesPositive(rules)
  {
    var active := ActiveRules(rules, ParseDate(date).value);
    active != [] ==> SegmentTypesOk(active[0].segments.Items())
  }

  /** An entry's segments are those of the first rule active on its day. */
  lemma EntryTakesLeader(s: RuleSet, start: string, end: string, draft: Draft, i: nat)
    requires ParseDate(start).Some? && ParseDate(end).Some? && Expandable(s, start, end)
    requires IsExpansion(s, start, end, draft) && i < |draft.entries.Items()|
    ensures var e, rules := draft.entries.Items()[i], s.rules.Items();
            ParseDate(e.date).Some? && WithinPeriod(e.date, start, end)
            && ActiveRules(rules, ParseDate(e.date).value) != []
            && e.segments == ActiveRules(rules, ParseDate(e.date).value)[0].segments
  {
    hide ActiveRules, ConflictIssues, RuleIds, Format, Nth, Matches, DayNumber, LexLess, EntriesBefore;
    var entries, rules := draft.entries.Items(), s.rules.Items();
    var first, last := ParseDate(start).value, ParseDate(end).value;
    var k := EntriesHoldDays(rules, first, ExpansionDays(first, last), i);
    ParseUndoesFormat(Nth(first, k));
    ExpansionIsExact(s, start, end, draft, entries[i].date);
    assert entries[i] in entries;
  }

  /** A day with an active rule has an entry. */
  lemma LedDayHasEntry(s: RuleSet, start: string, end: string, draft: Draft, date: string) returns (i: nat)
    requires ParseDate(start).Some? && ParseDate(end).Some? && Expandable(s, start, end)
    requires IsExpansion(s, start, end, draft) && ParseDate(date).Some? && WithinPeriod(date, start, end)
    requires ActiveRules(s.rules.Items(), ParseDate(date).value) != []
    ensures i < |draft.entries.Items()| && draft.entries.Items()[i].date == date
  {
    hide ActiveRules, ParseDate, EntryOf, Expandable;
    var rules, day := s.rules.Items(), ParseDate(date).value;
    var leader := ActiveRules(rules, day)[0];
    ActiveMeaning(rules, day, leader);
    ExpansionIsExact(s, start, end, draft, date);
    assert leader in rules && Matches(leader, day);
    var e :| e in draft.entries.Items() && e.date == date;
    i :| 0 <= i < |draft.entries.Items()| && draft.entries.Items()[i] == e;
  }

  /** An expanded draft passes Draft.Validate exactly when on every day of the range the first
      active rule has only segments of known types, which the rule validator does not check. */
  lemma ExpandedDraftPasses(s: RuleSet, start: string, end: string, draft: Draft)
    requires ParseDate(start).Some? && ParseDate(end).Some? && Expandable(s, start, end)
    requires IsExpansion(s, start, end, draft)
    ensures DraftOk(draft, start, end) <==>
            forall date: string :: ParseDate(date).Some? && WithinPeriod(date, start, end) ==>
              LeadsWithKnownTypes(s.rules.Items(), date)
    ensures (forall r :: r in s.rules.Items() ==> SegmentTypesOk(r.segments.Items())) ==> DraftOk(draft, start, end)
  {
    hide ActiveRules, DraftOk, SegmentTypesOk, ParseDate, WithinPeriod, Expandable;
    var entries, rules := draft.entries.Items(), s.rules.Items();
    OnlyTypesOpen(s, start, end, draft);
    forall i | 0 <= i < |entries|
      ensures ParseDate(entries[i].date).Some? && WithinPeriod(entries[i].date, start, end)
      ensures LeadsWithKnownTypes(rules, entries[i].date) <==> SegmentTypesOk(entries[i].segments.Items())
      ensures exists r :: r in rules && entries[i].segments == r.segments
    {
      EntryTakesLeader(s, start, end, draft, i);
      ExpandedEntryOk(s, start, end, draft, i);
    }
    forall date: string | ParseDate(date).Some? && WithinPeriod(date, start, end) && DraftOk(draft, start, end)
      ensures LeadsWithKnownTypes(rules, date)
    {
      if ActiveRules(rules, ParseDate(date).value) != [] {
        var i := LedDayHasEntry(s, start, end, draft, date);
      }
    }
  }

  lemma {:induction false} NotBelowItself(s: string)
    ensures !LexLess(s, s)
  {
    if s != "" { NotBelowItself(s[1..]); }
  }

  const SAMPLE_DAY := "2026-10-05"

  lemma SampleDayParses()
    ensures ParseDate(SAMPLE_DAY) == Some(Civil(2026, 10, 5))
  {
    assert Format(Civil(2026, 10, 5)) == SAMPLE_DAY;
    ParseUndoesFormat(Civil(2026, 10, 5));
  }

  function SampleRule(): Rule {
    Rule("a", SingleDate, "WORKING", Present([RawSegment("BREAK", "", "", "", "", false)]), "", [],
         "", "", SAMPLE_DAY, "", 0, [], [])
  }

  lemma SampleRulesValid()
    ensures ValidRuleSet(RuleSet(RULE_SCHEMA_VERSION, SAMPLE_DAY, SAMPLE_DAY, Present([SampleRule()]), Present([])),
                         SAMPLE_DAY, SAMPLE_DAY)
  {
    hide ParseDate, LexLess;
    SampleDayParses();
    NotBelowItself(SAMPLE_DAY);
    var rules := [SampleRule()];
    assert RuleOk(rules[0], SAMPLE_DAY, SAMPLE_DAY);
    forall x ensures !OnCycle(rules, x) {
      forall p | |p| >= 2 ensures !IsPath(rules, p) {
        assert !Edge(rules, p[0], p[1]);
      }
    }
  }

  function SampleRules(): RuleSet {
    RuleSet(RULE_SCHEMA_VERSION, SAMPLE_DAY, SAMPLE_DAY, Present([SampleRule()]), Present([]))
  }

  lemma SampleExpansion() returns (draft: Draft)
    ensures ParseDate(SAMPLE_DAY) == Some(Civil(2026, 10, 5)) && Expandable(SampleRules(), SAMPLE_DAY, SAMPLE_DAY)
    ensures IsExpansion(SampleRules(), SAMPLE_DAY, SAMPLE_DAY, draft)
  {
    hide ParseDate, LexLess, Acyclic, ShapesOk, ReplacementsOk, Matches, DayEntries, DayNumber;
    SampleDayParses();
    SampleRulesValid();
    var day := Civil(2026, 10, 5);
    assert Nth(day, 0) == day;
    draft := Draft(SAMPLE_DAY, SAMPLE_DAY, Present(EntriesBefore([SampleRule()], day, 1)), Present([]));
  }

  /** The rule validator accepts a rule set whose expansion Draft.Validate rejects: one
      dated rule with a segment of type BREAK. */
  lemma UnknownSegmentTypeSlipsThrough() returns (draft: Draft)
    ensures ParseDate(SAMPLE_DAY).Some? && Expandable(SampleRules(), SAMPLE_DAY, SAMPLE_DAY)
    ensures IsExpansion(SampleRules(), SAMPLE_DAY, SAMPLE_DAY, draft) && !DraftOk(draft, SAMPLE_DAY, SAMPLE_DAY)
  {
    hide ParseDate, LexLess, Acyclic, ShapesOk, ReplacementsOk, DayEntries, DayNumber, IsExpansion, Expandable,
         ActiveRules, EntryOf;
    draft := SampleExpansion();
    NotBelowItself(SAMPLE_DAY);
    assert Format(Civil(2026, 10, 5)) == SAMPLE_DAY;
    ExpansionIsExact(SampleRules(), SAMPLE_DAY, SAMPLE_DAY, draft, SAMPLE_DAY);
    assert SampleRule() in SampleRules().rules.Items() && Matches(SampleRule(), Civil(2026, 10, 5));
    var e :| e in draft.entries.Items() && e.date == SAMPLE_DAY;
    var i :| 0 <= i < |draft.entries.Items()| && draft.entries.Items()[i] == e;
    ExpandedEntryOk(SampleRules(), SAMPLE_DAY, SAMPLE_DAY, draft, i);
    OnlyTypesOpen(SampleRules(), SAMPLE_DAY, SAMPLE_DAY, draft);
    assert e.segments == SampleRule().segments;
    assert !SegmentTypeOk(e.segments.Items()[0]);
  }
}
