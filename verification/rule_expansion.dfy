/** Expanding a valid rule set into one entry per described date. */
module RuleExpansion {
  import opened Common
  import opened Calendar
  import opened RuleLanguage

  // ----- when a rule applies

  /** ISO weekday, Monday 1 to Sunday 7; 0000-01-01 was a Saturday. */
  function IsoWeekday(day: Civil): int
    requires Valid(day)
  {
    (DayNumber(day) + 5) % 7 + 1
  }

  /** A Go Duration holds at most 106751 whole days; day.Sub saturates there. */
  const MAX_DURATION_DAYS := 106751

  /** int(day.Sub(anchor) / (24 * time.Hour)) for two midnights. */
  function ElapsedDays(day: Civil, anchor: Civil): int
    requires Valid(day) && Valid(anchor)
  {
    var d := DayNumber(day) - DayNumber(anchor);
    if d > MAX_DURATION_DAYS then MAX_DURATION_DAYS
    else if d < -MAX_DURATION_DAYS then -MAX_DURATION_DAYS
    else d
  }

  /** The weekdays follow one another through all months and years. */
  lemma WeekdaysFollow(day: Civil)
    requires Valid(day)
    ensures 1 <= IsoWeekday(day) <= 7 && IsoWeekday(NextDay(day)) == IsoWeekday(day) % 7 + 1
  {
    hide DayNumber, NextDay, IsoWeekday;
    NextDayAddsOne(day);
    NextInWeek(DayNumber(day));
    WeekdayByNumber(day);
    WeekdayByNumber(NextDay(day));
  }

  lemma WeekdayByNumber(day: Civil)
    requires Valid(day)
    ensures IsoWeekday(day) == (DayNumber(day) + 5) % 7 + 1
  {
    hide DayNumber;
  }

  lemma NextInWeek(n: nat)
    ensures 1 <= (n + 5) % 7 + 1 <= 7 && (n + 1 + 5) % 7 + 1 == ((n + 5) % 7 + 1) % 7 + 1
  {
  }

  /** 1 January of year 1 is a Monday. */
  lemma FirstMonday()
    ensures DayNumber(Civil(1, 1, 1)) == 366 && IsoWeekday(Civil(1, 1, 1)) == 1
  {
  }

  predicate CyclePositive(r: Rule) {
    r.kind.Cycle? ==> r.cycleDays >= 1
  }

  /** time.Parse leaves the zero time, 1 January of year 1, behind an error. */
  function Anchor(r: Rule): (c: Civil)
    ensures Valid(c)
  {
    if ParseDate(r.anchorDate).Some? then ParseDate(r.anchorDate).value else Civil(1, 1, 1)
  }

  predicate OnOffset(r: Rule, delta: int)
    requires r.cycleDays >= 1
  {
    delta >= 0 && delta % r.cycleDays in r.dayOffsets
  }

  /** Rule.matches. */
  predicate Matches(r: Rule, day: Civil)
    requires Printable(day) && CyclePositive(r)
  {
    if r.start != "" && (LexLess(Format(day), r.start) || LexLess(r.end, Format(day))) then false
    else match r.kind
      case SingleDate => Format(day) == r.date
      case DateRange => true
      case Weekly => IsoWeekday(day) in r.weekdays
      case Cycle => OnOffset(r, ElapsedDays(day, Anchor(r)))
      case UnknownKind(_) => false
  }

  // ----- the rules that decide a day

  ghost predicate CyclesPositive(rules: seq<Rule>) {
    forall i :: 0 <= i < |rules| ==> CyclePositive(rules[i])
  }

  function TopRank(rules: seq<Rule>, day: Civil): nat
    requires Printable(day) && CyclesPositive(rules)
  {
    if rules == [] then 0
    else
      var init, last := rules[..|rules| - 1], rules[|rules| - 1];
      var top := TopRank(init, day);
      if Matches(last, day) && Rank(last.kind) > top then Rank(last.kind) else top
  }

  /** The matching rules of the given rank, in rule order. */
  function Contenders(rules: seq<Rule>, day: Civil, rank: nat): seq<Rule>
    requires Printable(day) && CyclesPositive(rules)
  {
    if rules == [] then []
    else
      var init, last := rules[..|rules| - 1], rules[|rules| - 1];
      Contenders(init, day, rank) + if Matches(last, day) && Rank(last.kind) == rank then [last] else []
  }

  function Superseded(rules: seq<Rule>): set<string> {
    set i, id | 0 <= i < |rules| && id in rules[i].supersedes :: id
  }

  function Standing(rules: seq<Rule>, gone: set<string>): seq<Rule> {
    if rules == [] then []
    else
      var init, last := rules[..|rules| - 1], rules[|rules| - 1];
      Standing(init, gone) + if last.id in gone then [] else [last]
  }

  function ActiveRules(rules: seq<Rule>, day: Civil): seq<Rule>
    requires Printable(day) && CyclesPositive(rules)
  {
    var matches := Contenders(rules, day, TopRank(rules, day));
    Standing(matches, Superseded(matches))
  }

  // ----- entries

  datatype Entry = Entry(
    ruleIds: seq<string>, date: string, status: string, note: string,
    segments: JsonArray<RawSegment>, uncertain: bool, issues: seq<Issue>)

  datatype Draft = Draft(
    periodStart: string, periodEnd: string, entries: JsonArray<Entry>, issues: JsonArray<Issue>)

  const CONFLICT_ISSUE := Issue("rules", "同优先级规则存在冲突，需人工确定")

  predicate Agree(a: Rule, b: Rule) {
    a.status == b.status && a.note == b.note && a.segments == b.segments
  }

  function RuleIds(rules: seq<Rule>): seq<string> {
    if rules == [] then [] else RuleIds(rules[..|rules| - 1]) + [rules[|rules| - 1].id]
  }

  /** One issue for each active rule that differs from the first. */
  function ConflictIssues(rules: seq<Rule>, first: Rule): seq<Issue> {
    if rules == [] then []
    else ConflictIssues(rules[..|rules| - 1], first)
         + if Agree(rules[|rules| - 1], first) then [] else [CONFLICT_ISSUE]
  }

  ghost predicate AllAgree(rules: seq<Rule>) {
    forall a, b :: a in rules && b in rules ==> Agree(a, b)
  }

  function EntryOf(active: seq<Rule>, date: string): Entry
    requires active != []
  {
    var issues := ConflictIssues(active, active[0]);
    Entry(RuleIds(active), date, active[0].status, active[0].note, active[0].segments, issues != [], issues)
  }

  function DayEntries(rules: seq<Rule>, day: Civil): seq<Entry>
    requires Printable(day) && CyclesPositive(rules)
  {
    var active := ActiveRules(rules, day);
    if active == [] then [] else [EntryOf(active, Format(day))]
  }

  function Nth(first: Civil, n: nat): (c: Civil)
    requires Valid(first)
    ensures Valid(c)
  {
    if n == 0 then first else NextDay(Nth(first, n - 1))
  }

  lemma {:induction false} NthNumber(first: Civil, n: nat)
    requires Valid(first)
    ensures DayNumber(Nth(first, n)) == DayNumber(first) + n
  {
    hide DayNumber, NextDay, Valid;
    if n > 0 {
      NthNumber(first, n - 1);
      NextDayAddsOne(Nth(first, n - 1));
    }
  }

  ghost predicate DaysPrintable(first: Civil, n: nat) {
    Valid(first) && forall k: nat :: k < n ==> Printable(Nth(first, k))
  }

  /** The entries of the first n days, oldest first. */
  ghost function EntriesBefore(rules: seq<Rule>, first: Civil, n: nat): seq<Entry>
    requires CyclesPositive(rules) && DaysPrintable(first, n)
  {
    if n == 0 then []
    else EntriesBefore(rules, first, n - 1) + DayEntries(rules, Nth(first, n - 1))
  }

  // ----- which rules are active

  lemma {:induction false} TopRankMeaning(rules: seq<Rule>, day: Civil)
    requires Printable(day) && CyclesPositive(rules)
    ensures forall r :: r in rules && Matches(r, day) ==> 1 <= Rank(r.kind) <= TopRank(rules, day)
    ensures TopRank(rules, day) > 0 ==> exists r :: r in rules && Matches(r, day) && Rank(r.kind) == TopRank(rules, day)
  {
    if rules != [] {
      var init, last := rules[..|rules| - 1], rules[|rules| - 1];
      TopRankMeaning(init, day);
      assert forall r :: r in rules <==> r in init || r == last;
    }
  }

  lemma {:induction false} ContenderMeaning(rules: seq<Rule>, day: Civil, rank: nat)
    requires Printable(day) && CyclesPositive(rules)
    ensures forall r :: r in Contenders(rules, day, rank) <==> r in rules && Matches(r, day) && Rank(r.kind) == rank
  {
    if rules != [] {
      var init, last := rules[..|rules| - 1], rules[|rules| - 1];
      ContenderMeaning(init, day, rank);
      assert forall r :: r in rules <==> r in init || r == last;
    }
  }

  lemma {:induction false} StandingMeaning(rules: seq<Rule>, gone: set<string>)
    ensures forall r :: r in Standing(rules, gone) <==> r in rules && r.id !in gone
  {
    if rules != [] {
      var init, last := rules[..|rules| - 1], rules[|rules| - 1];
      StandingMeaning(init, gone);
      assert forall r :: r in rules <==> r in init || r == last;
    }
  }

  /** A rule that applies to the day and that no applying rule outranks. */
  ghost predicate TopMatch(rules: seq<Rule>, day: Civil, r: Rule)
    requires Printable(day) && CyclesPositive(rules)
  {
    r in rules && Matches(r, day)
    && forall other :: other in rules && Matches(other, day) ==> Rank(other.kind) <= Rank(r.kind)
  }

  lemma ContendersAreTopMatches(rules: seq<Rule>, day: Civil, r: Rule)
    requires Printable(day) && CyclesPositive(rules)
    ensures r in Contenders(rules, day, TopRank(rules, day)) <==> TopMatch(rules, day, r)
  {
    TopRankMeaning(rules, day);
    ContenderMeaning(rules, day, TopRank(rules, day));
  }

  lemma SupersededMeaning(rules: seq<Rule>, id: string)
    ensures id in Superseded(rules) <==> exists r :: r in rules && id in r.supersedes
  {
    if exists r :: r in rules && id in r.supersedes {
      var r :| r in rules && id in r.supersedes;
      var i :| 0 <= i < |rules| && rules[i] == r;
    }
  }

  /** The active rules are the top matches that no other top match replaces. */
  lemma ActiveMeaning(rules: seq<Rule>, day: Civil, r: Rule)
    requires Printable(day) && CyclesPositive(rules)
    ensures r in ActiveRules(rules, day) <==>
            TopMatch(rules, day, r) && !exists s :: TopMatch(rules, day, s) && r.id in s.supersedes
  {
    var matches := Contenders(rules, day, TopRank(rules, day));
    StandingMeaning(matches, Superseded(matches));
    SupersededMeaning(matches, r.id);
    forall s ensures s in matches <==> TopMatch(rules, day, s) {
      ContendersAreTopMatches(rules, day, s);
    }
  }

  // ----- some rule is always active

  /** Walking from a rule to one that replaces it, over and over, gives longer and longer
      paths of the replacement relation. */
  lemma {:induction false} ReplacerPath(rules: seq<Rule>, matches: seq<Rule>, n: nat) returns (p: seq<string>)
    requires matches != [] && forall r :: r in matches ==> r in rules
    requires forall r :: r in matches ==> r.id in Superseded(matches)
    ensures |p| == n + 1 && IsPath(rules, p) && p[0] in Ids(matches)
    ensures forall i :: 0 <= i < |p| ==> p[i] in Ids(matches)
  {
    if n == 0 {
      p := [matches[0].id];
    } else {
      var q := ReplacerPath(rules, matches, n - 1);
      var k :| 0 <= k < |matches| && matches[k].id == q[0];
      assert matches[k] in matches;
      var m, id :| 0 <= m < |matches| && id in matches[m].supersedes && id == q[0];
      assert matches[m] in matches;
      var i :| 0 <= i < |rules| && rules[i] == matches[m];
      assert Edge(rules, matches[m].id, q[0]);
      p := [matches[m].id] + q;
      assert forall i :: 0 <= i < |q| ==> p[i + 1] == q[i];
      forall i | 0 <= i < |p| - 1 ensures Edge(rules, p[i], p[i + 1]) {
        if i > 0 { assert Edge(rules, q[i - 1], q[i]); }
      }
    }
  }

  lemma {:induction false} Pigeonhole(p: seq<string>, s: set<string>)
    requires forall i :: 0 <= i < |p| ==> p[i] in s
    requires |p| > |s|
    ensures !Distinct(p)
  {
    if p != [] {
      var init, last := p[..|p| - 1], p[|p| - 1];
      if last in init {
        var i :| 0 <= i < |init| && init[i] == last;
        assert p[i] == p[|p| - 1];
      } else {
        assert forall i :: 0 <= i < |init| ==> init[i] == p[i];
        Pigeonhole(init, s - {last});
      }
    } else {
      assert false;
    }
  }

  lemma RepeatIsCycle(rules: seq<Rule>, p: seq<string>)
    requires IsPath(rules, p) && !Distinct(p)
    ensures !Acyclic(rules)
  {
    var i, j :| 0 <= i < j < |p| && p[i] == p[j];
    var loop := p[i..j + 1];
    assert forall k :: 0 <= k < |loop| ==> loop[k] == p[i + k];
    assert IsPath(rules, loop);
    assert OnCycle(rules, p[i]);
  }

  /** Without circular replacements a day that some rule matches always keeps an active
      rule, so taking the first one is safe. */
  lemma ActiveNeverEmpty(rules: seq<Rule>, day: Civil)
    requires Printable(day) && CyclesPositive(rules) && Acyclic(rules)
    ensures ActiveRules(rules, day) == [] <==> !exists r :: r in rules && Matches(r, day)
  {
    var top := TopRank(rules, day);
    var matches := Contenders(rules, day, top);
    TopRankMeaning(rules, day);
    ContenderMeaning(rules, day, top);
    StandingMeaning(matches, Superseded(matches));
    if exists r :: r in rules && Matches(r, day) {
      var r :| r in rules && Matches(r, day) && Rank(r.kind) == top;
      assert r in matches;
      if ActiveRules(rules, day) == [] {
        forall s | s in matches ensures s.id in Superseded(matches) {
          assert s !in Standing(matches, Superseded(matches));
        }
        var p := ReplacerPath(rules, matches, |Ids(matches)|);
        Pigeonhole(p, Ids(matches));
        RepeatIsCycle(rules, p);
      }
    } else if ActiveRules(rules, day) != [] {
      assert ActiveRules(rules, day)[0] in ActiveRules(rules, day);
    }
  }

  // ----- RuleSet.Expand

  function ExpansionDays(start: Civil, end: Civil): nat
    requires Valid(start) && Valid(end) && DayNumber(start) <= DayNumber(end)
  {
    DayNumber(end) - DayNumber(start) + 1
  }

  lemma RangePrintable(first: Civil, last: Civil, n: nat)
    requires Printable(first) && Printable(last) && DayNumber(first) + n <= DayNumber(last) + 1
    ensures DaysPrintable(first, n)
  {
    forall k: nat | k < n ensures Printable(Nth(first, k)) {
      NthNumber(first, k);
      NumberBoundsYear(Nth(first, k), last);
    }
  }

  lemma ValidCycles(s: RuleSet, start: string, end: string)
    requires ValidRuleSet(s, start, end)
    ensures CyclesPositive(s.rules.Items())
  {
    var rules := s.rules.Items();
    forall i | 0 <= i < |rules| ensures CyclePositive(rules[i]) {
      assert RuleOk(rules[i], start, end);
    }
  }

  /** The inner loops of one day: running priority, then what is replaced, then the rest. */
  method DecideDay(rules: seq<Rule>, day: Civil) returns (matched: bool, active: seq<Rule>)
    requires Printable(day) && CyclesPositive(rules)
    ensures matched <==> exists r :: r in rules && Matches(r, day)
    ensures active == if matched then ActiveRules(rules, day) else []
  {
    hide Matches;
    var priority := 0;
    var matches: seq<Rule> := [];
    var i := 0;
    while i < |rules|
      invariant 0 <= i <= |rules| && CyclesPositive(rules[..i])
      invariant priority == TopRank(rules[..i], day) && matches == Contenders(rules[..i], day, priority)
    {
      var rule := rules[i];
      assert rules[..i + 1][..i] == rules[..i] && rules[..i + 1][i] == rule;
      if Matches(rule, day) {
        var p := Rank(rule.kind);
        if p > priority {
          NoneAbove(rules[..i], day, p);
          matches := [];
          priority := p;
        }
        if p == priority {
          matches := matches + [rule];
        }
      }
      i := i + 1;
    }
    assert rules[..i] == rules;
    MatchedMeaning(rules, day);
    if |matches| == 0 {
      return false, [];
    }
    matched := true;
    var replaced: set<string> := {};
    i := 0;
    while i < |matches|
      invariant 0 <= i <= |matches| && replaced == Superseded(matches[..i])
    {
      SupersededStep(matches, i);
      replaced := replaced + set id | id in matches[i].supersedes;
      i := i + 1;
    }
    assert matches[..i] == matches;
    active := [];
    i := 0;
    while i < |matches|
      invariant 0 <= i <= |matches| && active == Standing(matches[..i], replaced)
    {
      assert matches[..i + 1][..i] == matches[..i] && matches[..i + 1][i] == matches[i];
      if matches[i].id !in replaced {
        active := active + [matches[i]];
      }
      i := i + 1;
    }
    assert matches[..i] == matches;
  }

  lemma NoneAbove(rules: seq<Rule>, day: Civil, rank: nat)
    requires Printable(day) && CyclesPositive(rules) && rank > TopRank(rules, day)
    ensures Contenders(rules, day, rank) == []
  {
    TopRankMeaning(rules, day);
    ContenderMeaning(rules, day, rank);
    if Contenders(rules, day, rank) != [] {
      assert Contenders(rules, day, rank)[0] in Contenders(rules, day, rank);
    }
  }

  lemma MatchedMeaning(rules: seq<Rule>, day: Civil)
    requires Printable(day) && CyclesPositive(rules)
    ensures Contenders(rules, day, TopRank(rules, day)) != [] <==> exists r :: r in rules && Matches(r, day)
  {
    TopRankMeaning(rules, day);
    ContenderMeaning(rules, day, TopRank(rules, day));
    var matches := Contenders(rules, day, TopRank(rules, day));
    if matches != [] {
      assert matches[0] in matches;
    }
  }

  lemma SupersededStep(rules: seq<Rule>, i: nat)
    requires i < |rules|
    ensures Superseded(rules[..i + 1]) == Superseded(rules[..i]) + set id | id in rules[i].supersedes
  {
    var longer := rules[..i + 1];
    assert longer[i] == rules[i] && forall k :: 0 <= k < i ==> longer[k] == rules[..i][k];
  }

  /** The last inner loop: the entry starts from the first active rule and turns uncertain
      at every active rule that differs from it. */
  method BuildEntry(active: seq<Rule>, date: string) returns (entry: Entry)
    requires active != []
    ensures entry == EntryOf(active, date)
  {
    entry := Entry([], date, active[0].status, active[0].note, active[0].segments, false, []);
    var i := 0;
    while i < |active|
      invariant 0 <= i <= |active|
      invariant entry.date == date && entry.status == active[0].status && entry.note == active[0].note
      invariant entry.segments == active[0].segments && entry.ruleIds == RuleIds(active[..i])
      invariant entry.issues == ConflictIssues(active[..i], active[0]) && entry.uncertain == (entry.issues != [])
    {
      assert active[..i + 1][..i] == active[..i] && active[..i + 1][i] == active[i];
      entry := entry.(ruleIds := entry.ruleIds + [active[i].id]);
      if active[i].status != entry.status || active[i].note != entry.note || active[i].segments != entry.segments {
        entry := entry.(uncertain := true, issues := entry.issues + [CONFLICT_ISSUE]);
      }
      i := i + 1;
    }
    assert active[..i] == active;
  }

  /** The expansion fails for an invalid set, an inverted period or more than 366 days. */
  ghost predicate Expandable(s: RuleSet, start: string, end: string)
    requires ParseDate(start).Some? && ParseDate(end).Some?
  {
    ValidRuleSet(s, start, end)
    && 0 <= DayNumber(ParseDate(end).value) - DayNumber(ParseDate(start).value) <= 365
  }

  ghost predicate IsExpansion(s: RuleSet, start: string, end: string, draft: Draft)
    requires ParseDate(start).Some? && ParseDate(end).Some? && Expandable(s, start, end)
  {
    var first, last := ParseDate(start).value, ParseDate(end).value;
    var n := ExpansionDays(first, last);
    draft.periodStart == s.periodStart && draft.periodEnd == s.periodEnd && draft.issues == s.issues
    && CyclesPositive(s.rules.Items()) && DaysPrintable(first, n)
    && draft.entries == Present(EntriesBefore(s.rules.Items(), first, n))
  }

  /** The loop of Expand over the days of the period. */
  method ExpandDays(rules: seq<Rule>, first: Civil, last: Civil) returns (entries: seq<Entry>)
    requires Printable(first) && Printable(last) && DayNumber(first) <= DayNumber(last)
    requires CyclesPositive(rules) && Acyclic(rules)
    ensures DaysPrintable(first, ExpansionDays(first, last))
    ensures entries == EntriesBefore(rules, first, ExpansionDays(first, last))
  {
    hide ActiveRules, DayNumber, NextDay, Format, EntryOf, Acyclic, Matches, CyclesPositive;
    entries := [];
    var day := first;
    ghost var n := 0;
    RangePrintable(first, last, ExpansionDays(first, last));
    while DayNumber(day) <= DayNumber(last)
      invariant n <= ExpansionDays(first, last) && day == Nth(first, n) && DayNumber(day) == DayNumber(first) + n
      invariant DaysPrintable(first, n) && entries == EntriesBefore(rules, first, n)
      decreases DayNumber(last) + 1 - DayNumber(day)
    {
      var matched, active := DecideDay(rules, day);
      ActiveNeverEmpty(rules, day);
      if matched {
        var entry := BuildEntry(active, Format(day));
        entries := entries + [entry];
      }
      NextDayAddsOne(day);
      day := NextDay(day);
      n := n + 1;
      RangePrintable(first, last, n);
    }
  }

  /** RuleSet.Expand. */
  method Expand(s: RuleSet, start: string, end: string) returns (r: Result<Draft, RuleError>)
    requires ParseDate(start).Some? && ParseDate(end).Some?
    ensures r.Ok? <==> Expandable(s, start, end)
    ensures r.Ok? ==> IsExpansion(s, start, end, r.value)
    ensures r.Err? && ValidRuleSet(s, start, end) ==> r.error == InvalidPeriod
  {
    var error := ValidateRules(s, start, end);
    if error.Some? {
      return Err(error.value);
    }
    ValidCycles(s, start, end);
    var first, last := ParseDate(start).value, ParseDate(end).value;
    if DayNumber(first) > DayNumber(last) || ElapsedDays(last, first) > 365 {
      return Err(InvalidPeriod);
    }
    var entries := ExpandDays(s.rules.Items(), first, last);
    return Ok(Draft(s.periodStart, s.periodEnd, Present(entries), s.issues));
  }

  // ----- what the expansion contains

  lemma {:induction false} EntriesHoldDays(rules: seq<Rule>, first: Civil, n: nat, i: nat) returns (k: nat)
    requires CyclesPositive(rules) && DaysPrintable(first, n) && i < |EntriesBefore(rules, first, n)|
    ensures k < n && EntriesBefore(rules, first, n)[i] in DayEntries(rules, Nth(first, k))
    ensures EntriesBefore(rules, first, n)[i].date == Format(Nth(first, k))
  {
    hide ActiveRules, ConflictIssues, RuleIds, Format, Nth, Printable, Matches;
    if i < |EntriesBefore(rules, first, n - 1)| {
      k := EntriesHoldDays(rules, first, n - 1, i);
    } else {
      k := n - 1;
    }
  }

  lemma {:induction false} DaysHoldEntries(rules: seq<Rule>, first: Civil, n: nat, k: nat)
    requires CyclesPositive(rules) && DaysPrintable(first, n) && k < n
    ensures forall e :: e in DayEntries(rules, Nth(first, k)) ==> e in EntriesBefore(rules, first, n)
  {
    hide DayEntries, Nth, Printable, Matches;
    if k < n - 1 {
      DaysHoldEntries(rules, first, n - 1, k);
    }
  }

  lemma {:induction false} EntriesAscend(rules: seq<Rule>, first: Civil, n: nat)
    requires CyclesPositive(rules) && DaysPrintable(first, n)
    ensures forall i, j :: 0 <= i < j < |EntriesBefore(rules, first, n)| ==>
              LexLess(EntriesBefore(rules, first, n)[i].date, EntriesBefore(rules, first, n)[j].date)
    ensures |EntriesBefore(rules, first, n)| <= n
  {
    hide ActiveRules, ConflictIssues, RuleIds, Format, Nth, Printable, Matches, DayNumber, LexLess;
    if n > 0 {
      EntriesAscend(rules, first, n - 1);
      var earlier := EntriesBefore(rules, first, n - 1);
      forall i | 0 <= i < |earlier|
        ensures LexLess(earlier[i].date, Format(Nth(first, n - 1)))
      {
        var k := EntriesHoldDays(rules, first, n - 1, i);
        NthNumber(first, k);
        NthNumber(first, n - 1);
        TextOrderIsDayOrder(Nth(first, k), Nth(first, n - 1));
      }
    }
  }

  /** Entries ascend by date, and a date has an entry exactly when some rule matches it;
      that entry is the one its active rules make. */
  lemma ExpansionIsExact(s: RuleSet, start: string, end: string, draft: Draft, date: string)
    requires ParseDate(start).Some? && ParseDate(end).Some? && Expandable(s, start, end)
    requires IsExpansion(s, start, end, draft) && ParseDate(date).Some?
    ensures forall i, j :: 0 <= i < j < |draft.entries.Items()| ==>
              LexLess(draft.entries.Items()[i].date, draft.entries.Items()[j].date)
    ensures (exists e :: e in draft.entries.Items() && e.date == date) <==>
            WithinPeriod(date, start, end) && exists r :: r in s.rules.Items() && Matches(r, ParseDate(date).value)
    ensures forall e :: e in draft.entries.Items() && e.date == date ==>
              ActiveRules(s.rules.Items(), ParseDate(date).value) != []
              && e == EntryOf(ActiveRules(s.rules.Items(), ParseDate(date).value), date)
  {
    hide ActiveRules, ConflictIssues, RuleIds, Format, Nth, Matches, DayNumber, LexLess, EntriesBefore;
    var rules, day := s.rules.Items(), ParseDate(date).value;
    var first, last := ParseDate(start).value, ParseDate(end).value;
    var n := ExpansionDays(first, last);
    var entries := EntriesBefore(rules, first, n);
    EntriesAscend(rules, first, n);
    TextOrderIsDayOrder(day, first);
    TextOrderIsDayOrder(last, day);
    ActiveNeverEmpty(rules, day);
    forall e | e in entries && e.date == date
      ensures WithinPeriod(date, start, end) && DayEntries(rules, day) == [e]
    {
      var i :| 0 <= i < |entries| && entries[i] == e;
      var k := EntriesHoldDays(rules, first, n, i);
      NthNumber(first, k);
      ParseUndoesFormat(Nth(first, k));
    }
    if WithinPeriod(date, start, end) {
      var k := DayNumber(day) - DayNumber(first);
      NthNumber(first, k);
      SameNumberSameDay(Nth(first, k), day);
      DaysHoldEntries(rules, first, n, k);
      if DayEntries(rules, day) != [] {
        assert DayEntries(rules, day)[0] in entries;
      }
    }
  }

  // ----- certainty and rule order

  lemma {:induction false} NoConflicts(rules: seq<Rule>, first: Rule)
    ensures ConflictIssues(rules, first) == [] <==> forall r :: r in rules ==> Agree(r, first)
  {
    if rules != [] {
      var init, last := rules[..|rules| - 1], rules[|rules| - 1];
      NoConflicts(init, first);
      assert forall r :: r in rules <==> r in init || r == last;
    }
  }

  /** An entry is certain exactly when all its active rules agree. */
  lemma CertainMeansAgreement(active: seq<Rule>, date: string)
    requires active != []
    ensures !EntryOf(active, date).uncertain <==> AllAgree(active)
    ensures EntryOf(active, date).uncertain <==> EntryOf(active, date).issues != []
  {
    NoConflicts(active, active[0]);
    assert active[0] in active;
  }

  lemma SameMembersSameActive(rules: seq<Rule>, other: seq<Rule>, day: Civil)
    requires Printable(day) && CyclesPositive(rules) && CyclesPositive(other)
    requires forall r :: r in rules <==> r in other
    ensures forall r :: r in ActiveRules(rules, day) <==> r in ActiveRules(other, day)
  {
    forall r
      ensures r in ActiveRules(rules, day) <==> r in ActiveRules(other, day)
    {
      ActiveMeaning(rules, day, r);
      ActiveMeaning(other, day, r);
      assert forall s :: TopMatch(rules, day, s) <==> TopMatch(other, day, s);
    }
  }

  lemma SameRules(rules: seq<Rule>, other: seq<Rule>)
    requires CyclesPositive(rules) && multiset(rules) == multiset(other)
    ensures CyclesPositive(other) && forall r :: r in rules <==> r in other
  {
    forall r ensures r in rules <==> r in other {
      assert r in multiset(rules) <==> r in multiset(other);
    }
    forall i | 0 <= i < |other| ensures CyclePositive(other[i]) {
      assert other[i] in rules;
    }
  }

  /** Entries made from the same active rules, in whatever order. */
  lemma SameActiveSameEntry(a: seq<Rule>, b: seq<Rule>, date: string)
    requires forall r :: r in a <==> r in b
    ensures a == [] <==> b == []
    ensures a != [] ==>
              var e, f := EntryOf(a, date), EntryOf(b, date);
              e.date == f.date && e.uncertain == f.uncertain
              && (!e.uncertain ==> e.status == f.status && e.note == f.note && e.segments == f.segments)
  {
    hide ConflictIssues, RuleIds;
    assert a != [] ==> a[0] in b;
    assert b != [] ==> b[0] in a;
    if a != [] {
      CertainMeansAgreement(a, date);
      CertainMeansAgreement(b, date);
    }
  }

  /** Two entries that tell the same about a day: same date, same doubt, and what is certain is the same. */
  ghost predicate EntriesAgree(e: Entry, f: Entry) {
    e.date == f.date && e.uncertain == f.uncertain
    && (!e.uncertain ==> e.status == f.status && e.note == f.note && e.segments == f.segments)
  }

  /** Reordering the rules changes neither which days have an entry nor which entries are
      uncertain, and a certain entry keeps its status, note and segments. */
  lemma RuleOrderIrrelevant(rules: seq<Rule>, other: seq<Rule>, day: Civil)
    requires Printable(day) && CyclesPositive(rules) && multiset(rules) == multiset(other)
    ensures CyclesPositive(other)
    ensures |DayEntries(rules, day)| == |DayEntries(other, day)| <= 1
    ensures DayEntries(rules, day) != [] ==>
              EntriesAgree(DayEntries(rules, day)[0], DayEntries(other, day)[0])
  {
    hide ActiveRules, EntryOf, Format;
    SameRules(rules, other);
    SameMembersSameActive(rules, other, day);
    SameActiveSameEntry(ActiveRules(rules, day), ActiveRules(other, day), Format(day));
  }

  /** Validity does not depend on the order of the rules either. */
  lemma ValidityIgnoresOrder(s: RuleSet, rules: seq<Rule>, start: string, end: string)
    requires ValidRuleSet(s, start, end) && multiset(rules) == multiset(s.rules.Items())
    ensures ValidRuleSet(s.(rules := Present(rules)), start, end)
  {
    hide ShapesOk, ReplacementsOk, Acyclic;
    var was := s.rules.Items();
    ShapesIgnoreOrder(was, rules, start, end);
    forall r ensures r in rules <==> r in was {
      assert r in multiset(rules) <==> r in multiset(was);
    }
    ReplacementsIgnoreOrder(was, rules);
    AcyclicIgnoresOrder(was, rules);
  }

  lemma ShapesIgnoreOrder(was: seq<Rule>, rules: seq<Rule>, start: string, end: string)
    requires ShapesOk(was, start, end) && multiset(rules) == multiset(was)
    ensures ShapesOk(rules, start, end)
  {
    hide RuleOk;
    forall i | 0 <= i < |rules| ensures RuleOk(rules[i], start, end) {
      assert rules[i] in multiset(was);
    }
    forall i, j | 0 <= i < j < |rules| ensures rules[i].id != rules[j].id {
      IdsStayUnique(was, rules, i, j);
    }
  }

  lemma ReplacementsIgnoreOrder(was: seq<Rule>, rules: seq<Rule>)
    requires ReplacementsOk(was) && forall r :: r in rules <==> r in was
    ensures ReplacementsOk(rules)
  {
    hide Rank;
    IdsByMember(rules, was);
    forall i: nat, id | i < |rules| && id in rules[i].supersedes ensures ReplacementOk(rules, i, id) {
      assert rules[i] in was;
      var k: nat :| k < |was| && was[k] == rules[i];
      assert ReplacementOk(was, k, id);
      forall m | 0 <= m < |rules| && rules[m].id == id ensures Rank(rules[m].kind) <= Rank(rules[i].kind) {
        assert rules[m] in was;
      }
    }
  }

  lemma CyclesIgnoreOrder(was: seq<Rule>, rules: seq<Rule>, x: string)
    requires forall r :: r in rules <==> r in was
    ensures OnCycle(rules, x) ==> OnCycle(was, x)
  {
    if OnCycle(rules, x) {
      hide Edge;
      var p :| |p| >= 2 && IsPath(rules, p) && p[0] == x && p[|p| - 1] == x;
      forall a, b ensures Edge(rules, a, b) <==> Edge(was, a, b) {
        EdgeByMember(rules, a, b);
        EdgeByMember(was, a, b);
      }
      assert IsPath(was, p);
    }
  }

  lemma AcyclicIgnoresOrder(was: seq<Rule>, rules: seq<Rule>)
    requires Acyclic(was) && forall r :: r in rules <==> r in was
    ensures Acyclic(rules)
  {
    hide OnCycle;
    forall x ensures !OnCycle(rules, x) {
      CyclesIgnoreOrder(was, rules, x);
    }
  }

  lemma {:induction false} PermutedEntries(rules: seq<Rule>, other: seq<Rule>, first: Civil, n: nat)
    requires CyclesPositive(rules) && CyclesPositive(other) && multiset(rules) == multiset(other)
    requires DaysPrintable(first, n)
    ensures |EntriesBefore(rules, first, n)| == |EntriesBefore(other, first, n)|
    ensures forall i :: 0 <= i < |EntriesBefore(rules, first, n)| ==>
                          EntriesAgree(EntriesBefore(rules, first, n)[i], EntriesBefore(other, first, n)[i])
  {
    hide DayEntries, Printable, Matches, Nth;
    if n > 0 {
      PermutedEntries(rules, other, first, n - 1);
      RuleOrderIrrelevant(rules, other, Nth(first, n - 1));
    }
  }

  /** A rule set written in another order expands exactly when the original does, to a draft
      that tells the same about every day. */
  lemma PermutedRulesSameDraft(s: RuleSet, rules: seq<Rule>, start: string, end: string, draft: Draft, reordered: Draft)
    requires ParseDate(start).Some? && ParseDate(end).Some?
    requires s.rules.Present? && multiset(rules) == multiset(s.rules.elements)
    ensures Expandable(s, start, end) <==> Expandable(s.(rules := Present(rules)), start, end)
    ensures Expandable(s, start, end) && IsExpansion(s, start, end, draft)
            && IsExpansion(s.(rules := Present(rules)), start, end, reordered) ==>
              |draft.entries.Items()| == |reordered.entries.Items()|
              && forall i :: 0 <= i < |draft.entries.Items()| ==>
                               EntriesAgree(draft.entries.Items()[i], reordered.entries.Items()[i])
  {
    hide ValidRuleSet, DayNumber, Printable, DaysPrintable, CyclesPositive, EntriesAgree;
    var t := s.(rules := Present(rules));
    assert t.(rules := Present(s.rules.elements)) == s;
    if ValidRuleSet(s, start, end) {
      ValidityIgnoresOrder(s, rules, start, end);
    }
    if ValidRuleSet(t, start, end) {
      ValidityIgnoresOrder(t, s.rules.elements, start, end);
    }
    if Expandable(s, start, end) && IsExpansion(s, start, end, draft) && IsExpansion(t, start, end, reordered) {
      var first, last := ParseDate(start).value, ParseDate(end).value;
      PermutedEntries(s.rules.elements, rules, first, ExpansionDays(first, last));
    }
  }

  lemma EdgeByMember(rules: seq<Rule>, a: string, b: string)
    ensures Edge(rules, a, b) <==> exists r :: r in rules && r.id == a && b in r.supersedes
  {
    if exists r :: r in rules && r.id == a && b in r.supersedes {
      var r :| r in rules && r.id == a && b in r.supersedes;
      var i :| 0 <= i < |rules| && rules[i] == r;
    }
  }

  lemma IdsByMember(rules: seq<Rule>, other: seq<Rule>)
    requires forall r :: r in rules <==> r in other
    ensures Ids(rules) == Ids(other)
  {
    forall id ensures id in Ids(rules) <==> id in Ids(other) {
      if id in Ids(rules) {
        var i :| 0 <= i < |rules| && rules[i].id == id;
        assert rules[i] in other;
      }
      if id in Ids(other) {
        var i :| 0 <= i < |other| && other[i].id == id;
        assert other[i] in rules;
      }
    }
  }

  lemma OnceInBoth(was: seq<Rule>, rules: seq<Rule>, i: nat, j: nat)
    requires multiset(rules) == multiset(was) && i < j < |rules| && Distinct(was)
    ensures rules[i] != rules[j]
  {
    if rules[i] == rules[j] {
      var r := rules[i];
      assert rules == rules[..i] + [r] + rules[i + 1..j] + [r] + rules[j + 1..];
      assert multiset(was)[r] >= 2;
      OccursOnce(was, r);
    }
  }

  lemma {:induction false} OccursOnce(s: seq<Rule>, r: Rule)
    requires Distinct(s)
    ensures multiset(s)[r] <= 1
  {
    if s != [] {
      var init := s[..|s| - 1];
      assert s == init + [s[|s| - 1]];
      OccursOnce(init, r);
      if s[|s| - 1] == r {
        assert r !in init;
      }
    }
  }

  lemma IdsStayUnique(was: seq<Rule>, rules: seq<Rule>, i: nat, j: nat)
    requires multiset(rules) == multiset(was) && i < j < |rules|
    requires forall a, b :: 0 <= a < b < |was| ==> was[a].id != was[b].id
    ensures rules[i].id != rules[j].id
  {
    OnceInBoth(was, rules, i, j);
    assert rules[i] in multiset(was) && rules[j] in multiset(was);
    assert rules[i] in was && rules[j] in was;
  }

  // ----- cycles over calendar time

  /** What a cycle rule means: on or after the anchor, at a listed offset of the cycle. */
  ghost predicate CycleDue(r: Rule, day: Civil)
    requires Valid(day) && r.cycleDays >= 1
  {
    OnOffset(r, DayNumber(day) - DayNumber(Anchor(r)))
  }

  ghost predicate InWindow(r: Rule, day: Civil)
    requires Printable(day)
  {
    r.start == "" || (!LexLess(Format(day), r.start) && !LexLess(r.end, Format(day)))
  }

  /** Within the range of a Go Duration a cycle rule is exactly its meaning, and so it
      repeats every cycleDays days. */
  lemma CycleIsPeriodic(r: Rule, day: Civil, later: Civil)
    requires Printable(day) && Printable(later) && r.kind.Cycle? && r.cycleDays >= 1
    requires DayNumber(later) == DayNumber(day) + r.cycleDays
    requires DayNumber(later) - DayNumber(Anchor(r)) <= MAX_DURATION_DAYS
    requires DayNumber(day) >= DayNumber(Anchor(r)) && InWindow(r, day) && InWindow(r, later)
    ensures Matches(r, day) <==> CycleDue(r, day)
    ensures Matches(r, later) <==> Matches(r, day)
  {
    var d := DayNumber(day) - DayNumber(Anchor(r));
    assert (d + r.cycleDays) % r.cycleDays == d % r.cycleDays by { ModAddsPeriod(d, r.cycleDays); }
  }

  lemma ModAddsPeriod(d: nat, m: nat)
    requires m >= 1
    ensures (d + m) % m == d % m
  {
    var q := d / m;
    assert d == q * m + d % m;
    assert (q + 1) * m == q * m + m;
    ModUnique(d + m, m, q + 1, d % m);
  }

  lemma ModUnique(x: int, m: nat, q: int, r: nat)
    requires m >= 1 && r < m && x == q * m + r
    ensures x % m == r
  {
    var e := q - x / m;
    assert e * m == q * m - x / m * m;
    SmallMultiple(e, m);
  }

  lemma SmallMultiple(e: int, m: nat)
    requires m >= 1 && 0 - m < e * m < m
    ensures e == 0
  {
    assert (-e) * m == -(e * m);
    if e >= 1 {
      MulAtLeast(e, m);
    } else if e <= -1 {
      MulAtLeast(-e, m);
    }
  }

  lemma MulAtLeast(e: nat, m: nat)
    requires e >= 1
    ensures e * m >= m
  {
  }

  lemma MultipleOfAll(k: int) returns (v: int)
    requires k % 359 == 0 && k % 353 == 0 && k % 349 == 0
    ensures k == 359 * 353 * 349 * v
  {
    var a, q, r := k / 359, k / 353, k / 349;
    assert k == 359 * a && k == 353 * q && k == 349 * r;
    var t := q - a;
    assert 6 * a == 353 * t;
    var b := 59 * t - a;
    assert a == 353 * b;
    var u := r - 363 * b;
    assert 40 * b == 349 * u;
    v := 96 * u - 11 * b;
  }

  lemma NotDivisibleByAll(k: nat)
    requires 0 < k < 359 * 353 * 349 && k % 359 == 0 && k % 353 == 0
    ensures k % 349 != 0
  {
    if k % 349 == 0 {
      var v := MultipleOfAll(k);
    }
  }

  /** A one-day-in-the-cycle rule anchored on the given day. */
  function ProbeRule(anchor: string, cycleDays: int, offset: int): Rule {
    Rule("r", Cycle, "REST", Present([]), "", [], "", "", "", anchor, cycleDays, [offset], [])
  }

  /** Matching agrees with its meaning for every well-formed cycle rule anchored on a day
      exactly when the day is at most 106751 days after the anchor: beyond that, one of
      three prime cycle lengths already tells them apart. */
  lemma CycleExactWithinDuration(day: Civil, anchor: string)
    requires Printable(day) && ParseDate(anchor).Some?
    ensures DayNumber(day) - DayNumber(ParseDate(anchor).value) <= MAX_DURATION_DAYS <==>
            forall r: Rule :: AnchoredCycle(r, anchor) ==> (Matches(r, day) <==> CycleDue(r, day))
  {
    hide DayNumber, ParseDate, Format;
    var d := DayNumber(day) - DayNumber(ParseDate(anchor).value);
    if d > MAX_DURATION_DAYS {
      DayNumberBound(day);
      var c := TellingLength(d - MAX_DURATION_DAYS);
      var r := ProbeRule(anchor, c, MAX_DURATION_DAYS % c);
      assert AnchoredCycle(r, anchor);
      assert r.dayOffsets == [MAX_DURATION_DAYS % c];
      assert Matches(r, day);
      assert !CycleDue(r, day);
    }
  }

  ghost predicate AnchoredCycle(r: Rule, anchor: string) {
    r.kind.Cycle? && r.start == "" && r.anchorDate == anchor && ConditionOk(r, anchor, anchor)
  }

  /** A cycle length for which a delay of k days past the limit shows. */
  lemma TellingLength(k: nat) returns (c: int)
    requires 0 < k < 366 * 10000
    ensures c in {349, 353, 359} && (k + MAX_DURATION_DAYS) % c != MAX_DURATION_DAYS % c
  {
    c := if k % 359 != 0 then 359 else if k % 353 != 0 then 353 else 349;
    if c == 349 {
      NotDivisibleByAll(k);
    }
    if (k + MAX_DURATION_DAYS) % c == MAX_DURATION_DAYS % c {
      SameRemainder(k + MAX_DURATION_DAYS, MAX_DURATION_DAYS, c);
    }
  }

  lemma SameRemainder(x: int, y: int, m: nat)
    requires m >= 1 && x % m == y % m
    ensures (x - y) % m == 0
  {
    assert x - y == x / m * m - y / m * m;
    assert (x / m - y / m) * m == x / m * m - y / m * m;
    ModUnique(x - y, m, x / m - y / m, 0);
  }

  lemma {:induction false} YearBound(year: nat)
    ensures DaysBeforeYear(year) <= 366 * year
  {
    if year > 0 { YearBound(year - 1); }
  }

  lemma DayNumberBound(day: Civil)
    requires Printable(day)
    ensures DayNumber(day) < 366 * 10000
  {
    YearBound(day.year);
  }
}
