/** What an expansion says in terms of the rules' own fields and the civil calendar. */
module RuleMeaning {
  import opened Common
  import opened Calendar
  import opened RuleLanguage
  import opened RuleExpansion

  /** Single dates come before date ranges, and those before weekly and cyclic rules. */
  predicate Outranks(a: RuleKind, b: RuleKind) {
    (a.SingleDate? && !b.SingleDate?) || (a.DateRange? && !b.DateRange? && !b.SingleDate?)
  }

  lemma RankMeaning(a: RuleKind, b: RuleKind)
    ensures Rank(a) > Rank(b) <==> Outranks(a, b)
  {
  }

  /** Days from one date to another. */
  function DaysBetween(a: Civil, b: Civil): int
    requires Valid(a) && Valid(b)
  {
    DayNumber(b) - DayNumber(a)
  }

  /** The rule speaks of the day: within its own dates, if it has some, a single date on that
      date, a range on all of them, a weekly rule on its weekdays counted from a Monday, and a
      cycle on its offsets from the anchor on, the count stopping where a Go duration does. */
  ghost predicate Due(r: Rule, day: Civil)
    requires Valid(day)
  {
    (r.start != "" ==>
       ParseDate(r.start).Some? && ParseDate(r.end).Some?
       && DaysBetween(ParseDate(r.start).value, day) >= 0 && DaysBetween(day, ParseDate(r.end).value) >= 0)
    && match r.kind
       case SingleDate => ParseDate(r.date) == Some(day)
       case DateRange => true
       case Weekly => exists k :: 0 <= k < |r.weekdays| && r.weekdays[k] == DaysBetween(Civil(2026, 10, 5), day) % 7 + 1
       case Cycle =>
         ParseDate(r.anchorDate).Some? && r.cycleDays >= 1
         && var d := DaysBetween(ParseDate(r.anchorDate).value, day);
            var counted := if d > 106751 then 106751 else d;
            d >= 0 && exists k :: 0 <= k < |r.dayOffsets| && r.dayOffsets[k] == counted % r.cycleDays
       case UnknownKind(_) => false
  }

  // ----- the calendar behind it

  /** Days before a year, in the closed form of the Gregorian calendar. */
  lemma {:induction false} YearsInClosedForm(year: nat)
    ensures DaysBeforeYear(year) == 365 * year + (year + 3) / 4 - (year + 99) / 100 + (year + 399) / 400
  {
    hide YearLength;
    if year > 0 {
      YearsInClosedForm(year - 1);
      LengthByDivisors(year - 1);
      FourthYears(year - 1);
      Centuries(year - 1);
      FourthCenturies(year - 1);
    }
  }

  lemma LengthByDivisors(year: nat)
    ensures YearLength(year) == 365 + (if year % 4 == 0 then 1 else 0) - (if year % 100 == 0 then 1 else 0)
                                + if year % 400 == 0 then 1 else 0
  {
    assert year % 400 == 0 ==> year == 100 * (year / 400 * 4) && year % 100 == 0;
    assert year % 100 == 0 ==> year == 4 * (year / 100 * 25) && year % 4 == 0;
  }

  lemma FourthYears(n: nat)
    ensures (n + 1 + 3) / 4 == (n + 3) / 4 + if n % 4 == 0 then 1 else 0
  {
  }

  lemma Centuries(n: nat)
    ensures (n + 1 + 99) / 100 == (n + 99) / 100 + if n % 100 == 0 then 1 else 0
  {
  }

  lemma FourthCenturies(n: nat)
    ensures (n + 1 + 399) / 400 == (n + 399) / 400 + if n % 400 == 0 then 1 else 0
  {
  }

  /** 5 October 2026 is a Monday. */
  lemma KnownMonday()
    ensures DayNumber(Civil(2026, 10, 5)) == 740259 && IsoWeekday(Civil(2026, 10, 5)) == 1
  {
    YearsInClosedForm(2026);
  }

  lemma WeekdayFromMonday(day: Civil)
    requires Valid(day)
    ensures IsoWeekday(day) == DaysBetween(Civil(2026, 10, 5), day) % 7 + 1
  {
    hide DayNumber;
    KnownMonday();
  }

  lemma WindowByDays(date: string, start: string, end: string)
    requires ParseDate(date).Some? && ParseDate(start).Some? && ParseDate(end).Some?
    ensures WithinPeriod(date, start, end) <==>
            DaysBetween(ParseDate(start).value, ParseDate(date).value) >= 0
            && DaysBetween(ParseDate(date).value, ParseDate(end).value) >= 0
  {
    hide ParseDate, LexLess, DayNumber, Format;
    TextOrderIsDayOrder(ParseDate(date).value, ParseDate(start).value);
    TextOrderIsDayOrder(ParseDate(end).value, ParseDate(date).value);
  }

  // ----- which rules are accepted

  /** The period from a to b lies within the period from start to end and is not empty. */
  ghost predicate PeriodWithin(a: string, b: string, start: string, end: string)
    requires ParseDate(start).Some? && ParseDate(end).Some?
  {
    ParseDate(a).Some? && ParseDate(b).Some? && DaysBetween(ParseDate(a).value, ParseDate(b).value) >= 0
    && DaysBetween(ParseDate(start).value, ParseDate(a).value) >= 0
    && DaysBetween(ParseDate(b).value, ParseDate(end).value) >= 0
  }

  /** What each kind of rule must and must not carry: a weekly rule distinct weekdays 1 to 7, a
      range its two dates, a single date that date, a cycle an anchor, a length of 1 to 366 days
      and distinct offsets below it. A rule with dates of its own keeps them inside the range. */
  ghost predicate WellShaped(r: Rule, start: string, end: string)
    requires ParseDate(start).Some? && ParseDate(end).Some?
  {
    r.id != "" && (r.status == "WORKING" || r.status == "REST") && r.segments.Present?
    && ((r.start == "" && r.end == "") || PeriodWithin(r.start, r.end, start, end))
    && (r.kind.Cycle? || (r.anchorDate == "" && r.cycleDays == 0 && r.dayOffsets == []))
    && (r.kind.Weekly? || r.weekdays == []) && (r.kind.SingleDate? || r.date == "")
    && match r.kind
       case Weekly =>
         |r.weekdays| > 0 && (forall i :: 0 <= i < |r.weekdays| ==> 1 <= r.weekdays[i] <= 7)
         && forall i, j :: 0 <= i < j < |r.weekdays| ==> r.weekdays[i] != r.weekdays[j]
       case DateRange => r.start != "" && r.end != ""
       case SingleDate => r.start == "" && r.end == "" && PeriodWithin(r.date, r.date, start, end)
       case Cycle =>
         ParseDate(r.anchorDate).Some? && 1 <= r.cycleDays <= 366 && |r.dayOffsets| > 0
         && (forall i :: 0 <= i < |r.dayOffsets| ==> 0 <= r.dayOffsets[i] < r.cycleDays)
         && forall i, j :: 0 <= i < j < |r.dayOffsets| ==> r.dayOffsets[i] != r.dayOffsets[j]
       case UnknownKind(_) => false
  }

  lemma ShapeMeaning(r: Rule, start: string, end: string)
    requires ParseDate(start).Some? && ParseDate(end).Some?
    ensures RuleOk(r, start, end) <==> WellShaped(r, start, end)
  {
    hide ParseDate, LexLess, DayNumber, Format;
    if ParseDate(r.date).Some? {
      WindowByDays(r.date, start, end);
    }
    if ParseDate(r.start).Some? && ParseDate(r.end).Some? {
      PeriodByDays(r.start, r.end, start, end);
    }
  }

  lemma PeriodByDays(a: string, b: string, start: string, end: string)
    requires ParseDate(a).Some? && ParseDate(b).Some? && ParseDate(start).Some? && ParseDate(end).Some?
    ensures !LexLess(b, a) && !LexLess(a, start) && !LexLess(end, b) <==> PeriodWithin(a, b, start, end)
  {
    hide ParseDate, LexLess, DayNumber, Format;
    TextOrderIsDayOrder(ParseDate(b).value, ParseDate(a).value);
    TextOrderIsDayOrder(ParseDate(a).value, ParseDate(start).value);
    TextOrderIsDayOrder(ParseDate(end).value, ParseDate(b).value);
  }

  /** A replacement is allowed exactly when it names another rule of the set, and none of that
      id outranks the replacing one. */
  lemma ReplacementMeaning(rules: seq<Rule>, i: nat, id: string)
    requires i < |rules|
    ensures ReplacementOk(rules, i, id) <==>
            id != rules[i].id && (exists k :: 0 <= k < |rules| && rules[k].id == id)
            && forall k :: 0 <= k < |rules| && rules[k].id == id ==> !Outranks(rules[k].kind, rules[i].kind)
  {
    hide Rank, Outranks;
    forall k | 0 <= k < |rules|
      ensures Rank(rules[k].kind) > Rank(rules[i].kind) <==> Outranks(rules[k].kind, rules[i].kind)
    {
      RankMeaning(rules[k].kind, rules[i].kind);
    }
  }

  // ----- one rule on one day

  /** The matching test of the expansion is what the rule says. */
  lemma MatchMeaning(r: Rule, day: Civil, start: string, end: string)
    requires RuleOk(r, start, end) && Printable(day)
    ensures CyclePositive(r) && (Matches(r, day) <==> Due(r, day))
  {
    hide DayNumber, LexLess, ParseDate, Format, IsoWeekday, AllWithin, Distinct;
    ParseUndoesFormat(day);
    if r.start != "" {
      WindowByDays(Format(day), r.start, r.end);
    }
    WeekdayFromMonday(day);
    if r.kind.SingleDate? && ParseDate(r.date) == Some(day) {
      assert Format(day) == r.date;
    }
  }

  // ----- the rules of one day

  ghost predicate Top(rules: seq<Rule>, day: Civil, r: Rule)
    requires Valid(day)
  {
    r in rules && Due(r, day) && forall other :: other in rules && Due(other, day) ==> !Outranks(other.kind, r.kind)
  }

  /** The rule counts on the day: due, not outranked, and not replaced by another such rule. */
  ghost predicate Counts(rules: seq<Rule>, day: Civil, r: Rule)
    requires Valid(day)
  {
    Top(rules, day, r) && forall other :: Top(rules, day, other) ==> r.id !in other.supersedes
  }

  lemma ActiveCounts(s: RuleSet, start: string, end: string, day: Civil, r: Rule)
    requires ValidRuleSet(s, start, end) && Printable(day) && CyclesPositive(s.rules.Items())
    ensures r in ActiveRules(s.rules.Items(), day) <==> Counts(s.rules.Items(), day, r)
  {
    hide Matches, Due, ActiveRules, RuleOk, CyclePositive, ReplacementsOk, Acyclic, Outranks, Rank;
    var rules := s.rules.Items();
    forall x | x in rules ensures CyclePositive(x) && (Matches(x, day) <==> Due(x, day)) {
      RuleIsOk(s, start, end, x);
      MatchMeaning(x, day, start, end);
    }
    forall x, y ensures Rank(x) > Rank(y) <==> Outranks(x, y) {
      RankMeaning(x, y);
    }
    forall x ensures TopMatch(rules, day, x) <==> Top(rules, day, x) {
    }
    ActiveMeaning(rules, day, r);
  }

  lemma RuleIsOk(s: RuleSet, start: string, end: string, r: Rule)
    requires ValidRuleSet(s, start, end) && r in s.rules.Items()
    ensures RuleOk(r, start, end)
  {
    hide RuleOk, ReplacementsOk, Acyclic;
    var i :| 0 <= i < |s.rules.Items()| && s.rules.Items()[i] == r;
  }

  /** The rules that pass both filters of a day, in list order. */
  ghost function Passing(rules: seq<Rule>, day: Civil, rank: nat, gone: set<string>): seq<Rule>
    requires Printable(day) && CyclesPositive(rules)
  {
    Standing(Contenders(rules, day, rank), gone)
  }

  lemma PassingExtends(rules: seq<Rule>, day: Civil, rank: nat, gone: set<string>)
    requires Printable(day) && CyclesPositive(rules) && rules != []
    ensures var init, last := rules[..|rules| - 1], rules[|rules| - 1];
            Passing(rules, day, rank, gone) ==
            Passing(init, day, rank, gone)
            + if Matches(last, day) && Rank(last.kind) == rank && last.id !in gone then [last] else []
  {
    hide Matches, Rank;
    var init, last := rules[..|rules| - 1], rules[|rules| - 1];
    StandingExtends(Contenders(init, day, rank), last, gone, Matches(last, day) && Rank(last.kind) == rank);
  }

  /** Filtering keeps the order: the first active rule is the first of the list that is active. */
  lemma {:induction false} FirstPassing(rules: seq<Rule>, day: Civil, rank: nat, gone: set<string>) returns (k: nat)
    requires Printable(day) && CyclesPositive(rules) && Passing(rules, day, rank, gone) != []
    ensures k < |rules| && rules[k] == Passing(rules, day, rank, gone)[0]
    ensures forall j :: 0 <= j < k ==> !PassesBoth(rules[j], day, rank, gone)
  {
    hide Matches, Rank, Passing, PassesBoth;
    if rules == [] {
      NothingPasses(day, rank, gone);
    } else {
      var init, last := rules[..|rules| - 1], rules[|rules| - 1];
      PassingExtends(rules, day, rank, gone);
      if Passing(init, day, rank, gone) != [] {
        k := FirstPassing(init, day, rank, gone);
        assert init[k] == rules[k] && forall j :: 0 <= j < k ==> init[j] == rules[j];
      } else {
        k := |rules| - 1;
        forall j | 0 <= j < k ensures !PassesBoth(rules[j], day, rank, gone) {
          assert init[j] == rules[j] && init[j] in init;
          PassingMeaning(init, day, rank, gone, init[j]);
        }
      }
    }
  }

  ghost predicate PassesBoth(r: Rule, day: Civil, rank: nat, gone: set<string>)
    requires Printable(day)
  {
    CyclePositive(r) && Matches(r, day) && Rank(r.kind) == rank && r.id !in gone
  }

  lemma NothingPasses(day: Civil, rank: nat, gone: set<string>)
    requires Printable(day)
    ensures Passing([], day, rank, gone) == []
  {
  }

  lemma PassingMeaning(rules: seq<Rule>, day: Civil, rank: nat, gone: set<string>, r: Rule)
    requires Printable(day) && CyclesPositive(rules) && r in rules
    ensures r in Passing(rules, day, rank, gone) <==> PassesBoth(r, day, rank, gone)
  {
    hide Matches, Rank;
    ContenderMeaning(rules, day, rank);
    StandingMeaning(Contenders(rules, day, rank), gone);
    var i :| 0 <= i < |rules| && rules[i] == r;
  }

  lemma StandingExtends(rules: seq<Rule>, last: Rule, gone: set<string>, more: bool)
    ensures Standing(rules + if more then [last] else [], gone) ==
            Standing(rules, gone) + if more && last.id !in gone then [last] else []
  {
    if more {
      assert (rules + [last])[..|rules|] == rules;
    } else {
      assert rules + [] == rules;
    }
  }

  /** The rule an entry is taken from: the first of the list that counts. */
  ghost predicate Leads(rules: seq<Rule>, day: Civil, k: nat)
    requires Valid(day)
  {
    k < |rules| && Counts(rules, day, rules[k]) && forall j :: 0 <= j < k ==> !Counts(rules, day, rules[j])
  }

  lemma LeaderIsFirst(s: RuleSet, start: string, end: string, day: Civil) returns (k: nat)
    requires ValidRuleSet(s, start, end) && Printable(day) && CyclesPositive(s.rules.Items())
    requires ActiveRules(s.rules.Items(), day) != []
    ensures Leads(s.rules.Items(), day, k) && s.rules.Items()[k] == ActiveRules(s.rules.Items(), day)[0]
  {
    hide Counts, ValidRuleSet, CyclesPositive, Contenders, Standing, Superseded, TopRank;
    var rules := s.rules.Items();
    var rank := TopRank(rules, day);
    var gone := Superseded(Contenders(rules, day, rank));
    k := FirstPassing(rules, day, rank, gone);
    ActiveCounts(s, start, end, day, rules[k]);
    assert rules[k] in ActiveRules(rules, day);
    forall j | 0 <= j < k ensures !Counts(rules, day, rules[j]) {
      PassingMeaning(rules, day, rank, gone, rules[j]);
      ActiveCounts(s, start, end, day, rules[j]);
    }
  }

  // ----- the draft

  ghost predicate SameWords(a: Rule, b: Rule) {
    a.status == b.status && a.note == b.note && a.segments == b.segments
  }

  /** The entry a day gets: status, note and segments of the leading rule, in doubt exactly when
      another rule that counts says something else, naming all rules that count. */
  ghost predicate TakenFrom(rules: seq<Rule>, day: Civil, e: Entry, k: nat)
    requires Valid(day)
  {
    Leads(rules, day, k)
    && e.status == rules[k].status && e.note == rules[k].note && e.segments == rules[k].segments
    && (e.uncertain <==> exists r :: Counts(rules, day, r) && !SameWords(r, rules[k]))
    && (e.uncertain <==> e.issues != [])
    && forall id :: id in e.ruleIds <==> exists r :: Counts(rules, day, r) && r.id == id
  }

  lemma {:induction false} RuleIdsMeaning(rules: seq<Rule>, id: string)
    ensures id in RuleIds(rules) <==> exists r :: r in rules && r.id == id
  {
    if rules != [] {
      var init, last := rules[..|rules| - 1], rules[|rules| - 1];
      RuleIdsMeaning(init, id);
      assert forall r :: r in rules <==> r in init || r == last;
    }
  }

  lemma EntryMeaning(s: RuleSet, start: string, end: string, day: Civil, date: string) returns (k: nat)
    requires ValidRuleSet(s, start, end) && Printable(day) && CyclesPositive(s.rules.Items())
    requires ActiveRules(s.rules.Items(), day) != []
    ensures TakenFrom(s.rules.Items(), day, EntryOf(ActiveRules(s.rules.Items(), day), date), k)
  {
    hide Counts, Leads, ValidRuleSet, CyclesPositive, ActiveRules, ConflictIssues, RuleIds;
    var rules, active := s.rules.Items(), ActiveRules(s.rules.Items(), day);
    k := LeaderIsFirst(s, start, end, day);
    CertainMeansAgreement(active, date);
    forall r ensures r in active <==> Counts(rules, day, r) {
      ActiveCounts(s, start, end, day, r);
    }
    assert active[0] in active;
    forall id ensures id in RuleIds(active) <==> exists r :: Counts(rules, day, r) && r.id == id {
      RuleIdsMeaning(active, id);
    }
  }

  /** The expansion in the rules' own terms: within the range, and only there, a date has an
      entry exactly when some rule is due, taken from the first rule that counts. */
  lemma ExpansionMeaning(s: RuleSet, start: string, end: string, draft: Draft, date: string)
    requires ParseDate(start).Some? && ParseDate(end).Some? && Expandable(s, start, end)
    requires IsExpansion(s, start, end, draft) && ParseDate(date).Some?
    ensures (exists e :: e in draft.entries.Items() && e.date == date) <==>
            DaysBetween(ParseDate(start).value, ParseDate(date).value) >= 0
            && DaysBetween(ParseDate(date).value, ParseDate(end).value) >= 0
            && exists r :: r in s.rules.Items() && Due(r, ParseDate(date).value)
    ensures forall e :: e in draft.entries.Items() && e.date == date ==>
              exists k: nat :: TakenFrom(s.rules.Items(), ParseDate(date).value, e, k)
  {
    hide Due, Matches, TakenFrom, ValidRuleSet, CyclesPositive, ActiveRules, EntryOf, DayNumber, ParseDate, LexLess,
         EntriesBefore;
    var rules, day := s.rules.Items(), ParseDate(date).value;
    ExpansionIsExact(s, start, end, draft, date);
    WindowByDays(date, start, end);
    forall r | r in rules ensures CyclePositive(r) && (Matches(r, day) <==> Due(r, day)) {
      RuleIsOk(s, start, end, r);
      MatchMeaning(r, day, start, end);
    }
    forall e | e in draft.entries.Items() && e.date == date ensures exists k: nat :: TakenFrom(rules, day, e, k) {
      var k := EntryMeaning(s, start, end, day, date);
    }
  }
}
