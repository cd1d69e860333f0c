/** The rule language a model answers in: what a rule set may contain, and the walk that
    rejects circular replacements. */
module RuleLanguage {
  import opened Common
  import opened Calendar

  /** A JSON array that may be missing or null. */
  datatype JsonArray<T> = Absent | Present(elements: seq<T>) {
    function Items(): seq<T> {
      if Present? then elements else []
    }
  }

  datatype Issue = Issue(field: string, message: string)

  datatype RawSegment = RawSegment(
    kind: string, originalLabel: string, mappedShiftCode: string,
    startTime: string, endTime: string, crossDay: bool)

  datatype RuleKind = Weekly | DateRange | SingleDate | Cycle | UnknownKind(name: string)

  datatype Rule = Rule(
    id: string, kind: RuleKind, status: string, segments: JsonArray<RawSegment>, note: string,
    weekdays: seq<int>, start: string, end: string, date: string,
    anchorDate: string, cycleDays: int, dayOffsets: seq<int>, supersedes: seq<string>)

  datatype RuleSet = RuleSet(
    schemaVersion: string, periodStart: string, periodEnd: string,
    rules: JsonArray<Rule>, issues: JsonArray<Issue>)

  datatype RuleError =
    | InvalidSchema | DuplicateOrEmptyId | InvalidRuleStatus | SegmentsMissing | InvalidCondition
    | InvalidRuleRange | InvalidReplacement | ReplacementPriorityMismatch | CyclicReplacements
    | InvalidPeriod

  const RULE_SCHEMA_VERSION := "shiftory.rules.v1"

  function Rank(kind: RuleKind): nat {
    match kind
    case SingleDate => 3
    case DateRange => 2
    case _ => 1
  }

  // ----- the shape of one rule

  predicate AllWithin(values: seq<int>, low: int, high: int) {
    forall i :: 0 <= i < |values| ==> low <= values[i] < high
  }

  predicate Distinct<T(==)>(values: seq<T>) {
    forall i, j :: 0 <= i < j < |values| ==> values[i] != values[j]
  }

  predicate ConditionOk(r: Rule, start: string, end: string) {
    match r.kind
    case Weekly =>
      r.weekdays != [] && r.date == "" && r.anchorDate == "" && r.cycleDays == 0 && r.dayOffsets == []
      && AllWithin(r.weekdays, 1, 8) && Distinct(r.weekdays)
    case DateRange =>
      r.start != "" && r.end != "" && r.date == "" && r.weekdays == [] && r.anchorDate == ""
      && r.cycleDays == 0 && r.dayOffsets == []
    case SingleDate =>
      ParseDate(r.date).Some? && WithinPeriod(r.date, start, end) && r.start == "" && r.end == ""
      && r.weekdays == [] && r.anchorDate == "" && r.cycleDays == 0 && r.dayOffsets == []
    case Cycle =>
      ParseDate(r.anchorDate).Some? && 1 <= r.cycleDays <= 366 && r.dayOffsets != [] && r.date == ""
      && r.weekdays == [] && AllWithin(r.dayOffsets, 0, r.cycleDays) && Distinct(r.dayOffsets)
    case UnknownKind(_) => false
  }

  predicate RangeOk(r: Rule, start: string, end: string) {
    (r.start == "" && r.end == "")
    || (ParseDate(r.start).Some? && ParseDate(r.end).Some?
        && !LexLess(r.end, r.start) && !LexLess(r.start, start) && !LexLess(end, r.end))
  }

  predicate StatusOk(status: string) {
    status == "WORKING" || status == "REST"
  }

  predicate RuleOk(r: Rule, start: string, end: string) {
    r.id != "" && StatusOk(r.status) && r.segments.Present?
    && ConditionOk(r, start, end) && RangeOk(r, start, end)
  }

  /** The error of one rule: its conditions are looked at in this order. */
  predicate FaultOf(r: Rule, start: string, end: string, error: RuleError) {
    match error
    case InvalidRuleStatus => !StatusOk(r.status)
    case SegmentsMissing => StatusOk(r.status) && r.segments.Absent?
    case InvalidCondition => StatusOk(r.status) && r.segments.Present? && !ConditionOk(r, start, end)
    case InvalidRuleRange =>
      StatusOk(r.status) && r.segments.Present? && ConditionOk(r, start, end) && !RangeOk(r, start, end)
    case _ => false
  }

  ghost predicate ShapesOk(rules: seq<Rule>, start: string, end: string) {
    (forall i :: 0 <= i < |rules| ==> RuleOk(rules[i], start, end))
    && forall i, j :: 0 <= i < j < |rules| ==> rules[i].id != rules[j].id
  }

  /** The i-th rule is the first without its shape: a missing or repeated id comes before the
      rest. */
  ghost predicate FirstShapeFault(rules: seq<Rule>, start: string, end: string, i: nat, error: RuleError)
    requires i < |rules|
  {
    ShapesOk(rules[..i], start, end)
    && if rules[i].id == "" || (exists k :: 0 <= k < i && rules[k].id == rules[i].id)
       then error == DuplicateOrEmptyId else FaultOf(rules[i], start, end, error)
  }

  // ----- replacements

  ghost predicate Edge(rules: seq<Rule>, a: string, b: string) {
    exists i :: 0 <= i < |rules| && rules[i].id == a && b in rules[i].supersedes
  }

  function Ids(rules: seq<Rule>): set<string> {
    set i | 0 <= i < |rules| :: rules[i].id
  }

  /** A rule may replace another existing rule whose kind does not outrank its own. */
  ghost predicate ReplacementOk(rules: seq<Rule>, i: nat, id: string)
    requires i < |rules|
  {
    id != rules[i].id && id in Ids(rules)
    && forall k :: 0 <= k < |rules| && rules[k].id == id ==> Rank(rules[k].kind) <= Rank(rules[i].kind)
  }

  /** The j-th replacement of the i-th rule is the first that is not allowed. */
  ghost predicate FirstReplacementFault(rules: seq<Rule>, i: nat, j: nat, error: RuleError)
    requires i < |rules| && j < |rules[i].supersedes|
  {
    (forall k: nat, id :: k < i && id in rules[k].supersedes ==> ReplacementOk(rules, k, id))
    && (forall m :: 0 <= m < j ==> ReplacementOk(rules, i, rules[i].supersedes[m]))
    && !ReplacementOk(rules, i, rules[i].supersedes[j])
    && error == if rules[i].supersedes[j] == rules[i].id || rules[i].supersedes[j] !in Ids(rules)
                then InvalidReplacement else ReplacementPriorityMismatch
  }

  ghost predicate ReplacementsOk(rules: seq<Rule>) {
    forall i: nat, id :: i < |rules| && id in rules[i].supersedes ==> ReplacementOk(rules, i, id)
  }

  ghost predicate IsPath(rules: seq<Rule>, p: seq<string>) {
    forall i :: 0 <= i < |p| - 1 ==> Edge(rules, p[i], p[i + 1])
  }

  ghost predicate OnCycle(rules: seq<Rule>, x: string) {
    exists p :: |p| >= 2 && IsPath(rules, p) && p[0] == x && p[|p| - 1] == x
  }

  ghost predicate Acyclic(rules: seq<Rule>) {
    forall x :: !OnCycle(rules, x)
  }

  ghost predicate HeaderOk(s: RuleSet, start: string, end: string) {
    s.schemaVersion == RULE_SCHEMA_VERSION && s.periodStart == start && s.periodEnd == end
    && s.rules.Present? && s.issues.Present?
  }

  ghost predicate ValidRuleSet(s: RuleSet, start: string, end: string) {
    HeaderOk(s, start, end) && ShapesOk(s.rules.Items(), start, end)
    && ReplacementsOk(s.rules.Items()) && Acyclic(s.rules.Items())
  }

  // ----- the depth-first walk

  ghost predicate ClosedUnder(rules: seq<Rule>, done: set<string>) {
    forall a, b :: a in done && Edge(rules, a, b) ==> b in done
  }

  ghost predicate NoCycleThrough(rules: seq<Rule>, done: set<string>) {
    forall x :: x in done ==> !OnCycle(rules, x)
  }

  /** The path of rules whose visits are still open leads to the rule about to be visited. */
  ghost predicate LeadsTo(rules: seq<Rule>, stack: seq<string>, id: string) {
    IsPath(rules, stack + [id])
  }

  ghost function Members(p: seq<string>): set<string> {
    set i | 0 <= i < |p| :: p[i]
  }

  lemma MembersAppend(p: seq<string>, id: string)
    ensures Members(p + [id]) == Members(p) + {id}
  {
    var longer := p + [id];
    assert longer[|p|] == id && forall i :: 0 <= i < |p| ==> longer[i] == p[i];
  }

  lemma RevisitClosesCycle(rules: seq<Rule>, stack: seq<string>, id: string)
    requires LeadsTo(rules, stack, id) && id in Members(stack)
    ensures OnCycle(rules, id)
  {
    var k :| 0 <= k < |stack| && stack[k] == id;
    var whole := stack + [id];
    var loop := whole[k..];
    assert forall i :: 0 <= i < |loop| ==> loop[i] == whole[k + i];
    assert IsPath(rules, loop);
  }

  lemma {:induction false} StaysInside(rules: seq<Rule>, done: set<string>, p: seq<string>, k: nat)
    requires ClosedUnder(rules, done) && IsPath(rules, p) && 1 <= k < |p| && p[1] in done
    ensures p[k] in done
  {
    if k > 1 {
      StaysInside(rules, done, p, k - 1);
      assert Edge(rules, p[k - 1], p[k]);
    }
  }

  lemma FinishedNotOnCycle(rules: seq<Rule>, done: set<string>, id: string)
    requires ClosedUnder(rules, done) && id !in done
    requires forall b :: Edge(rules, id, b) ==> b in done
    ensures !OnCycle(rules, id)
  {
    if OnCycle(rules, id) {
      var p :| |p| >= 2 && IsPath(rules, p) && p[0] == id && p[|p| - 1] == id;
      assert Edge(rules, p[0], p[1]);
      StaysInside(rules, done, p, |p| - 1);
    }
  }

  /** The closure `visit` with the two maps it captures. */
  class ReplacementWalk {
    const rules: seq<Rule>
    var visiting: set<string>
    var visited: set<string>

    constructor (rules: seq<Rule>)
      ensures this.rules == rules && visiting == {} && visited == {}
    {
      this.rules := rules;
      visiting, visited := {}, {};
    }

    ghost predicate Settled()
      reads this
    {
      visiting !! visited && ClosedUnder(rules, visited) && NoCycleThrough(rules, visited)
    }

    /** Reports a cycle only when there is one; otherwise the rule and everything it
        replaces, directly or not, is visited and lies on no cycle. */
    method Visit(id: string, ghost stack: seq<string>) returns (cyclic: bool)
      requires Settled() && visiting == Members(stack) && LeadsTo(rules, stack, id)
      requires id in Ids(rules) && ReplacementsOk(rules)
      modifies this
      ensures cyclic ==> !Acyclic(rules)
      ensures !cyclic ==> Settled() && visiting == old(visiting) && old(visited) + {id} <= visited
      decreases Ids(rules) - visiting
    {
      hide Members, LeadsTo, OnCycle, Rank;
      if id in visiting {
        RevisitClosesCycle(rules, stack, id);
        return true;
      }
      if id in visited {
        return false;
      }
      ghost var before := visited;
      ghost var path := stack + [id];
      MembersAppend(stack, id);
      visiting := visiting + {id};
      var i := 0;
      while i < |rules|
        invariant 0 <= i <= |rules|
        invariant Settled() && visiting == Members(path) && before <= visited
        invariant forall k, b :: 0 <= k < i && rules[k].id == id && b in rules[k].supersedes ==> b in visited
      {
        if rules[i].id == id {
          var j := 0;
          while j < |rules[i].supersedes|
            invariant 0 <= j <= |rules[i].supersedes|
            invariant Settled() && visiting == Members(path) && before <= visited
            invariant forall k, b :: 0 <= k < i && rules[k].id == id && b in rules[k].supersedes ==> b in visited
            invariant forall k :: 0 <= k < j ==> rules[i].supersedes[k] in visited
          {
            var next := rules[i].supersedes[j];
            assert Edge(rules, id, next);
            ExtendPath(rules, stack, id, next);
            cyclic := Visit(next, path);
            if cyclic {
              return;
            }
            j := j + 1;
          }
        }
        i := i + 1;
      }
      FinishedNotOnCycle(rules, visited, id);
      visiting := visiting - {id};
      visited := visited + {id};
      return false;
    }
  }

  lemma ExtendPath(rules: seq<Rule>, stack: seq<string>, id: string, next: string)
    requires LeadsTo(rules, stack, id) && Edge(rules, id, next)
    ensures LeadsTo(rules, stack + [id], next)
  {
    var shorter, longer := stack + [id], (stack + [id]) + [next];
    forall i | 0 <= i < |longer| - 1
      ensures Edge(rules, longer[i], longer[i + 1])
    {
      if i < |shorter| - 1 {
        assert longer[i] == shorter[i] && longer[i + 1] == shorter[i + 1];
      }
    }
  }

  lemma CycleStartsKnown(rules: seq<Rule>, x: string)
    requires OnCycle(rules, x)
    ensures x in Ids(rules)
  {
    var p :| |p| >= 2 && IsPath(rules, p) && p[0] == x && p[|p| - 1] == x;
    assert Edge(rules, p[0], p[1]);
  }

  lemma AllVisitedAcyclic(rules: seq<Rule>, done: set<string>)
    requires Ids(rules) <= done && NoCycleThrough(rules, done)
    ensures Acyclic(rules)
  {
    forall x
      ensures !OnCycle(rules, x)
    {
      if OnCycle(rules, x) {
        CycleStartsKnown(rules, x);
      }
    }
  }

  /** The last loop of Validate: ids are visited in no particular order. */
  method FindCycle(rules: seq<Rule>) returns (cyclic: bool)
    requires ReplacementsOk(rules)
    ensures cyclic <==> !Acyclic(rules)
  {
    var walk := new ReplacementWalk(rules);
    var todo := Ids(rules);
    while todo != {}
      invariant walk.rules == rules && walk.visiting == {} && walk.Settled()
      invariant todo <= Ids(rules) <= walk.visited + todo
    {
      var id :| id in todo;
      assert Members([]) == {} && IsPath(rules, [] + [id]);
      cyclic := walk.Visit(id, []);
      if cyclic {
        return;
      }
      todo := todo - {id};
    }
    AllVisitedAcyclic(rules, walk.visited);
    return false;
  }

  // ----- RuleSet.Validate

  /** The loops over weekdays and over day offsets, with their `seen` maps. */
  method CheckMembers(values: seq<int>, low: int, high: int) returns (ok: bool)
    ensures ok <==> AllWithin(values, low, high) && Distinct(values)
  {
    var seen: set<int> := {};
    for i := 0 to |values|
      invariant seen == set k | 0 <= k < i :: values[k]
      invariant AllWithin(values[..i], low, high) && Distinct(values[..i])
    {
      if values[i] < low || values[i] >= high || values[i] in seen {
        return false;
      }
      seen := seen + {values[i]};
    }
    assert values[..|values|] == values;
    return true;
  }

  method CheckRule(r: Rule, start: string, end: string) returns (error: Option<RuleError>)
    ensures error.None? <==>
            StatusOk(r.status) && r.segments.Present? && ConditionOk(r, start, end) && RangeOk(r, start, end)
    ensures error.Some? ==> FaultOf(r, start, end, error.value)
  {
    hide ParseDate, LexLess;
    if r.status != "WORKING" && r.status != "REST" {
      return Some(InvalidRuleStatus);
    }
    if r.segments.Absent? {
      return Some(SegmentsMissing);
    }
    match r.kind {
      case Weekly =>
        if r.weekdays == [] || r.date != "" || r.anchorDate != "" || r.cycleDays != 0 || r.dayOffsets != [] {
          return Some(InvalidCondition);
        }
        var ok := CheckMembers(r.weekdays, 1, 8);
        if !ok {
          return Some(InvalidCondition);
        }
      case DateRange =>
        if r.start == "" || r.end == "" || r.date != "" || r.weekdays != [] || r.anchorDate != ""
           || r.cycleDays != 0 || r.dayOffsets != [] {
          return Some(InvalidCondition);
        }
      case SingleDate =>
        if ParseDate(r.date).None? || LexLess(r.date, start) || LexLess(end, r.date) || r.start != "" || r.end != ""
           || r.weekdays != [] || r.anchorDate != "" || r.cycleDays != 0 || r.dayOffsets != [] {
          return Some(InvalidCondition);
        }
      case Cycle =>
        if ParseDate(r.anchorDate).None? || r.cycleDays < 1 || r.cycleDays > 366 || r.dayOffsets == []
           || r.date != "" || r.weekdays != [] {
          return Some(InvalidCondition);
        }
        var ok := CheckMembers(r.dayOffsets, 0, r.cycleDays);
        if !ok {
          return Some(InvalidCondition);
        }
      case UnknownKind(_) =>
        return Some(InvalidCondition);
    }
    if r.start != "" || r.end != "" {
      if ParseDate(r.start).None? || ParseDate(r.end).None? {
        return Some(InvalidRuleRange);
      }
      if LexLess(r.end, r.start) || LexLess(r.start, start) || LexLess(end, r.end) {
        return Some(InvalidRuleRange);
      }
    }
    return None;
  }

  /** The first loop of Validate: ids are new and every rule has its shape. */
  method CheckShapes(rules: seq<Rule>, start: string, end: string) returns (error: Option<RuleError>)
    ensures error.None? <==> ShapesOk(rules, start, end)
    ensures error.Some? ==> exists i :: 0 <= i < |rules| && FirstShapeFault(rules, start, end, i, error.value)
  {
    hide ConditionOk, RangeOk, StatusOk;
    var ids: set<string> := {};
    for i := 0 to |rules|
      invariant ids == Ids(rules[..i])
      invariant ShapesOk(rules[..i], start, end)
    {
      var r := rules[i];
      assert rules[..i + 1] == rules[..i] + [r];
      if r.id == "" || r.id in ids {
        if r.id in ids {
          var k :| 0 <= k < i && rules[..i][k].id == r.id;
          assert rules[k].id == rules[i].id;
        }
        assert FirstShapeFault(rules, start, end, i, DuplicateOrEmptyId);
        return Some(DuplicateOrEmptyId);
      }
      ids := ids + {r.id};
      error := CheckRule(r, start, end);
      assert forall k :: 0 <= k < i ==> rules[..i][k].id in Ids(rules[..i]);
      if error.Some? {
        assert FirstShapeFault(rules, start, end, i, error.value);
        return;
      }
    }
    assert rules[..|rules|] == rules;
    return None;
  }

  /** The second loop of Validate: what a rule may replace. */
  method CheckReplacements(rules: seq<Rule>) returns (error: Option<RuleError>)
    ensures error.None? <==> ReplacementsOk(rules)
    ensures error.Some? ==>
              exists i, j :: 0 <= i < |rules| && 0 <= j < |rules[i].supersedes|
                             && FirstReplacementFault(rules, i, j, error.value)
  {
    var ids := Ids(rules);
    for i := 0 to |rules|
      invariant forall k, id :: 0 <= k < i && id in rules[k].supersedes ==> ReplacementOk(rules, k, id)
    {
      for j := 0 to |rules[i].supersedes|
        invariant forall k :: 0 <= k < j ==> ReplacementOk(rules, i, rules[i].supersedes[k])
      {
        var id := rules[i].supersedes[j];
        assert id in rules[i].supersedes && (ReplacementsOk(rules) ==> ReplacementOk(rules, i, id));
        if id == rules[i].id || id !in ids {
          assert FirstReplacementFault(rules, i, j, InvalidReplacement);
          return Some(InvalidReplacement);
        }
        for k := 0 to |rules|
          invariant forall m :: 0 <= m < k && rules[m].id == id ==> Rank(rules[m].kind) <= Rank(rules[i].kind)
        {
          if rules[k].id == id && Rank(rules[k].kind) > Rank(rules[i].kind) {
            assert FirstReplacementFault(rules, i, j, ReplacementPriorityMismatch);
            return Some(ReplacementPriorityMismatch);
          }
        }
      }
    }
    return None;
  }

  /** RuleSet.Validate. Everything passes exactly when the set is valid. The header comes
      first, then the first rule without its shape, then the first replacement that is not
      allowed, and the cycle error is given exactly when a cycle is the only thing wrong. */
  method ValidateRules(s: RuleSet, start: string, end: string) returns (error: Option<RuleError>)
    ensures error.None? <==> ValidRuleSet(s, start, end)
    ensures error == Some(CyclicReplacements) <==>
            HeaderOk(s, start, end) && ShapesOk(s.rules.Items(), start, end)
            && ReplacementsOk(s.rules.Items()) && !Acyclic(s.rules.Items())
    ensures error == Some(InvalidSchema) <==> !HeaderOk(s, start, end)
    ensures error.Some? && HeaderOk(s, start, end) && !ShapesOk(s.rules.Items(), start, end) ==>
              exists i :: 0 <= i < |s.rules.Items()| && FirstShapeFault(s.rules.Items(), start, end, i, error.value)
    ensures error.Some? && HeaderOk(s, start, end) && ShapesOk(s.rules.Items(), start, end)
            && !ReplacementsOk(s.rules.Items()) ==>
              exists i, j :: 0 <= i < |s.rules.Items()| && 0 <= j < |s.rules.Items()[i].supersedes|
                             && FirstReplacementFault(s.rules.Items(), i, j, error.value)
  {
    if s.schemaVersion != RULE_SCHEMA_VERSION || s.periodStart != start || s.periodEnd != end
       || s.rules.Absent? || s.issues.Absent? {
      return Some(InvalidSchema);
    }
    error := CheckShapes(s.rules.Items(), start, end);
    if error.Some? {
      return;
    }
    error := CheckReplacements(s.rules.Items());
    if error.Some? {
      return;
    }
    var cyclic := FindCycle(s.rules.Items());
    return if cyclic then Some(CyclicReplacements) else None;
  }
}
