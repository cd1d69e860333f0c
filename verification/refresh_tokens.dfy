/** Refresh-token rotation: token rows, rotations under way, and what interleaved requests
    can and cannot obtain. */
module RefreshTokens {
  import opened Common

  datatype Token = Token(family: nat, expires: nat, used: bool, revoked: bool, replacement: Option<nat>)

  /** `pending` holds the replacements of tokens already consumed but not yet stored, by
      identity, with their family; `issued` and `families` every identity ever drawn. */
  datatype State = State(rows: map<nat, Token>, pending: map<nat, nat>, issued: set<nat>, families: set<nat>)

  datatype Answer = Accepted | Replay | Revoked

  datatype Event =
    | Login(id: nat, family: nat, expires: nat)
    | Consume(id: nat, replacement: nat)
    | Store(replacement: nat, expires: nat)
    | Abandon(replacement: nat)
    | Revoke(family: nat)

  const EMPTY := State(map[], map[], {}, {})

  /** ConsumeRefresh decides under the row lock. */
  function Judge(s: State, now: nat, id: nat): Answer {
    if id !in s.rows then Revoked
    else if s.rows[id].revoked || now > s.rows[id].expires then Revoked
    else if s.rows[id].used then Replay
    else Accepted
  }

  /** Identities are drawn fresh; only a rotation under way can store or be given up. */
  predicate Enabled(s: State, event: Event) {
    match event
    case Login(id, family, _) => id !in s.issued && family !in s.families
    case Consume(_, replacement) => replacement !in s.issued
    case Store(replacement, _) => replacement in s.pending
    case Abandon(replacement) => replacement in s.pending
    case Revoke(_) => true
  }

  function RevokeFamily(rows: map<nat, Token>, family: nat): map<nat, Token> {
    map t | t in rows :: if rows[t].family == family then rows[t].(revoked := true) else rows[t]
  }

  function Apply(s: State, now: nat, event: Event): State
    requires Enabled(s, event)
  {
    match event
    case Login(id, family, expires) =>
      s.(rows := s.rows[id := Token(family, expires, false, false, None)],
         issued := s.issued + {id}, families := s.families + {family})
    case Consume(id, replacement) =>
      if Judge(s, now, id) == Accepted then
        s.(rows := s.rows[id := s.rows[id].(used := true, replacement := Some(replacement))],
           pending := s.pending[replacement := s.rows[id].family],
           issued := s.issued + {replacement})
      else s
    case Store(replacement, expires) =>
      s.(rows := s.rows[replacement := Token(s.pending[replacement], expires, false, false, None)],
         pending := s.pending - {replacement})
    case Abandon(replacement) => s.(pending := s.pending - {replacement})
    case Revoke(family) => s.(rows := RevokeFamily(s.rows, family))
  }

  // ----- one head per family

  /** The token can still be rotated, or is the replacement of one being rotated. */
  predicate Head(s: State, id: nat, family: nat) {
    (id in s.rows && s.rows[id].family == family && !s.rows[id].used)
    || (id in s.pending && s.pending[id] == family)
  }

  ghost predicate Inv(s: State) {
    (forall t :: t in s.rows ==> t in s.issued && s.rows[t].family in s.families && t !in s.pending)
    && (forall t :: t in s.pending ==> t in s.issued && s.pending[t] in s.families)
    && forall a, b, family :: Head(s, a, family) && Head(s, b, family) ==> a == b
  }

  lemma StepKeepsInv(s: State, now: nat, event: Event)
    requires Inv(s) && Enabled(s, event)
    ensures Inv(Apply(s, now, event))
  {
    var next := Apply(s, now, event);
    forall a, b, family | Head(next, a, family) && Head(next, b, family) ensures a == b {
      HeadBefore(s, now, event, a, family);
      HeadBefore(s, now, event, b, family);
    }
  }

  /** The token a later head took over from, itself when nothing happened to it. */
  function Origin(s: State, now: nat, event: Event, id: nat): nat
    requires Enabled(s, event)
  {
    if event.Consume? && event.replacement == id && Judge(s, now, event.id) == Accepted then event.id else id
  }

  /** A head after a step was a head, took over from one, or opened its family. */
  lemma HeadBefore(s: State, now: nat, event: Event, id: nat, family: nat)
    requires Inv(s) && Enabled(s, event) && Head(Apply(s, now, event), id, family)
    ensures Head(s, Origin(s, now, event, id), family) || (event.Login? && event.id == id && event.family == family)
    ensures event.Consume? && Judge(s, now, event.id) == Accepted ==> id != event.id
  {
  }

  // ----- runs

  datatype Run = Run(states: seq<State>, steps: seq<(nat, Event)>)

  ghost predicate ValidRun(run: Run) {
    |run.states| == |run.steps| + 1 && Inv(run.states[0])
    && forall i :: 0 <= i < |run.steps| ==>
         Enabled(run.states[i], run.steps[i].1)
         && run.states[i + 1] == Apply(run.states[i], run.steps[i].0, run.steps[i].1)
  }

  lemma EmptyHasInv()
    ensures Inv(EMPTY)
  {
  }

  lemma {:induction false} InvAlways(run: Run, i: nat)
    requires ValidRun(run) && i < |run.states|
    ensures Inv(run.states[i])
  {
    hide Inv, Apply;
    if i > 0 {
      InvAlways(run, i - 1);
      StepKeepsInv(run.states[i - 1], run.steps[i - 1].0, run.steps[i - 1].1);
    }
  }

  /** In every interleaving a family has at most one token that is unused, or consumed with its
      replacement not yet stored. */
  lemma OneHeadPerFamily(run: Run, i: nat, a: nat, b: nat, family: nat)
    requires ValidRun(run) && i < |run.states| && Head(run.states[i], a, family) && Head(run.states[i], b, family)
    ensures a == b
  {
    InvAlways(run, i);
  }

  /** The step hands out a new pair for the token. */
  ghost predicate Rotates(run: Run, i: nat, id: nat)
    requires ValidRun(run) && i < |run.steps|
  {
    run.steps[i].1.Consume? && run.steps[i].1.id == id && Judge(run.states[i], run.steps[i].0, id) == Accepted
  }

  lemma {:induction false} UsedStays(run: Run, i: nat, k: nat, id: nat)
    requires ValidRun(run) && i <= k < |run.states| && id in run.states[i].rows && run.states[i].rows[id].used
    ensures id in run.states[k].rows && run.states[k].rows[id].used
    decreases k - i
  {
    hide Judge;
    if i < k {
      UsedStays(run, i, k - 1, id);
      InvAlways(run, k - 1);
      assert run.states[k - 1 + 1] == Apply(run.states[k - 1], run.steps[k - 1].0, run.steps[k - 1].1);
    }
  }

  /** However many requests present one token, at most one rotation of it succeeds. */
  lemma OneRotationPerToken(run: Run, i: nat, k: nat, id: nat)
    requires ValidRun(run) && i <= k < |run.steps| && Rotates(run, i, id) && Rotates(run, k, id)
    ensures i == k
  {
    if i < k {
      assert run.states[i + 1] == Apply(run.states[i], run.steps[i].0, run.steps[i].1);
      UsedStays(run, i + 1, k, id);
    }
  }

  /** The answer by the fields of the row: revoked when it is missing, revoked or expired, a
      replay when it was used before, and accepted otherwise. */
  lemma VerdictByFields(s: State, now: nat, id: nat)
    ensures Judge(s, now, id) == Revoked <==> id !in s.rows || s.rows[id].revoked || s.rows[id].expires < now
    ensures Judge(s, now, id) == Accepted <==>
            id in s.rows && !s.rows[id].revoked && now <= s.rows[id].expires && !s.rows[id].used
  {
  }

  /** Nothing lengthens the life of a stored token, and nothing takes a revocation back. */
  lemma {:induction false} LifeIsFixed(run: Run, i: nat, k: nat, id: nat)
    requires ValidRun(run) && i <= k < |run.states| && id in run.states[i].rows
    ensures id in run.states[k].rows && run.states[k].rows[id].expires == run.states[i].rows[id].expires
    ensures run.states[i].rows[id].revoked ==> run.states[k].rows[id].revoked
    decreases k - i
  {
    hide Judge;
    if i < k {
      LifeIsFixed(run, i, k - 1, id);
      InvAlways(run, k - 1);
      assert run.states[k - 1 + 1] == Apply(run.states[k - 1], run.steps[k - 1].0, run.steps[k - 1].1);
    }
  }

  /** From the moment its expiry has passed, its row was revoked or it was used, a stored token
      is refused in every continuation, and a used one is told from the others for as long as
      it has neither expired nor been revoked. */
  lemma RefusedForGood(run: Run, i: nat, k: nat, id: nat, now: nat)
    requires ValidRun(run) && i <= k < |run.states| && id in run.states[i].rows
    ensures run.states[i].rows[id].expires < now || run.states[i].rows[id].revoked ==>
              Judge(run.states[k], now, id) == Revoked
    ensures run.states[i].rows[id].used ==>
              id in run.states[k].rows
              && Judge(run.states[k], now, id) ==
                 if run.states[k].rows[id].revoked || run.states[i].rows[id].expires < now then Revoked else Replay
  {
    LifeIsFixed(run, i, k, id);
    if run.states[i].rows[id].used {
      UsedStays(run, i, k, id);
    }
  }

  // ----- revocation

  ghost predicate Dead(s: State, family: nat) {
    family in s.families
    && (forall t :: t in s.rows && s.rows[t].family == family ==> s.rows[t].revoked)
    && forall t :: t in s.pending ==> s.pending[t] != family
  }

  ghost predicate InFlight(s: State, family: nat) {
    exists t :: t in s.pending && s.pending[t] == family
  }

  lemma DeadStays(s: State, now: nat, event: Event, family: nat)
    requires Inv(s) && Dead(s, family) && Enabled(s, event)
    ensures Dead(Apply(s, now, event), family)
    ensures event.Consume? && event.id in s.rows && s.rows[event.id].family == family ==>
              Judge(s, now, event.id) == Revoked
  {
  }

  lemma {:induction false} DeadForGood(run: Run, k: nat, family: nat)
    requires ValidRun(run) && k < |run.states| && Dead(run.states[0], family)
    ensures Dead(run.states[k], family)
  {
    hide Dead, Inv, Apply;
    if k > 0 {
      DeadForGood(run, k - 1, family);
      InvAlways(run, k - 1);
      DeadStays(run.states[k - 1], run.steps[k - 1].0, run.steps[k - 1].1, family);
    }
  }

  /** Some step of the run accepts a token of the family. */
  ghost predicate AcceptsAgain(run: Run, family: nat)
    requires ValidRun(run)
  {
    exists k :: 0 <= k < |run.steps| && AcceptsAt(run, k, family)
  }

  ghost predicate AcceptsAt(run: Run, k: nat, family: nat)
    requires ValidRun(run) && k < |run.steps|
  {
    run.steps[k].1.Consume? && run.steps[k].1.id in run.states[k].rows
    && run.states[k].rows[run.steps[k].1.id].family == family
    && Judge(run.states[k], run.steps[k].0, run.steps[k].1.id) == Accepted
  }

  ghost predicate RunFrom(run: Run, s: State) {
    ValidRun(run) && run.states[0] == s
  }

  lemma {:induction false} LargestExists(s: set<nat>)
    requires s != {}
    ensures exists x :: x in s && forall y :: y in s ==> y <= x
  {
    var x :| x in s;
    if s != {x} {
      LargestExists(s - {x});
      var m :| m in s - {x} && forall y :: y in s - {x} ==> y <= m;
      assert forall y :: y in s ==> y in s - {x} || y == x;
      var top := if m < x then x else m;
      assert top in s && forall y :: y in s ==> y <= top;
    }
  }

  /** A rotation under way when its family is revoked can still store its token, and that
      token is accepted. */
  lemma InFlightSurvives(s: State, family: nat, now: nat) returns (run: Run)
    requires Inv(s) && InFlight(s, family)
    ensures RunFrom(run, Apply(s, now, Revoke(family))) && AcceptsAgain(run, family)
  {
    var t :| t in s.pending && s.pending[t] == family;
    var revoked := Apply(s, now, Revoke(family));
    StepKeepsInv(s, now, Revoke(family));
    var stored := Apply(revoked, now, Store(t, now));
    var id := LargerThan(stored.issued);
    var rotated := Apply(stored, now, Consume(t, id));
    run := Run([revoked, stored, rotated], [(now, Store(t, now)), (now, Consume(t, id))]);
    assert AcceptsAt(run, 1, family);
  }

  lemma LargerThan(issued: set<nat>) returns (id: nat)
    ensures id !in issued
  {
    if issued == {} {
      id := 0;
    } else {
      LargestExists(issued);
      var x :| x in issued && forall y :: y in issued ==> y <= x;
      id := x + 1;
    }
  }

  /** Revoking a family ends it for good exactly when no rotation of it is under way at that
      moment: otherwise some continuation accepts a token of the family again. */
  lemma RevocationIsFinal(s: State, family: nat, now: nat)
    requires Inv(s) && family in s.families
    ensures (exists run :: RunFrom(run, Apply(s, now, Revoke(family))) && AcceptsAgain(run, family)) <==>
            InFlight(s, family)
  {
    var revoked := Apply(s, now, Revoke(family));
    if InFlight(s, family) {
      var run := InFlightSurvives(s, family, now);
    } else {
      forall run | RunFrom(run, revoked) ensures !AcceptsAgain(run, family) {
        NoneAcceptedFromDead(run, family);
      }
    }
  }

  lemma NoneAcceptedFromDead(run: Run, family: nat)
    requires ValidRun(run) && Dead(run.states[0], family)
    ensures !AcceptsAgain(run, family)
  {
    hide Judge, Inv;
    forall k | 0 <= k < |run.steps| ensures !AcceptsAt(run, k, family) {
      DeadForGood(run, k, family);
      InvAlways(run, k);
      DeadStays(run.states[k], run.steps[k].0, run.steps[k].1, family);
    }
  }

  // ----- what one request leaves behind

  predicate FamilyRevoked(s: State, family: nat) {
    forall t :: t in s.rows && s.rows[t].family == family ==> s.rows[t].revoked
  }

  /** Stored tokens and rotations of all other families are untouched. */
  ghost predicate OthersAsBefore(before: State, after: State, family: nat) {
    (forall t :: t in before.rows && before.rows[t].family != family ==>
       t in after.rows && after.rows[t] == before.rows[t])
    && (forall t :: t in after.rows && after.rows[t].family != family ==> t in before.rows)
    && after.pending == before.pending
  }

  /** The old token has given way to a new head of its family. */
  predicate Rotated(s: State, id: nat, replacement: nat, family: nat) {
    id in s.rows && s.rows[id].used && s.rows[id].replacement == Some(replacement)
    && replacement in s.rows && Head(s, replacement, family)
  }

  lemma LoginOutcome(s: State, now: nat, id: nat, family: nat, expires: nat)
    requires Inv(s) && Enabled(s, Login(id, family, expires))
    ensures var next := Apply(s, now, Login(id, family, expires));
            Inv(next) && Head(next, id, family) && (forall t :: Head(next, t, family) ==> t == id)
            && OthersAsBefore(s, next, family)
  {
    StepKeepsInv(s, now, Login(id, family, expires));
  }

  lemma RevokeOutcome(s: State, now: nat, family: nat)
    requires Inv(s)
    ensures var next := Apply(s, now, Revoke(family));
            Inv(next) && FamilyRevoked(next, family) && OthersAsBefore(s, next, family) && next.pending == s.pending
  {
    StepKeepsInv(s, now, Revoke(family));
    hide Inv;
  }

  lemma ConsumeOutcome(s: State, now: nat, id: nat, replacement: nat)
    requires Inv(s) && replacement !in s.issued
    ensures var next := Apply(s, now, Consume(id, replacement));
            Inv(next) && (Judge(s, now, id) != Accepted ==> next == s)
            && (Judge(s, now, id) == Accepted ==>
                  replacement in next.pending && next.pending - {replacement} == s.pending)
  {
    StepKeepsInv(s, now, Consume(id, replacement));
    assert replacement !in s.pending;
  }

  lemma AbandonOutcome(s: State, now: nat, id: nat, replacement: nat)
    requires Inv(s) && replacement !in s.issued && Judge(s, now, id) == Accepted
    ensures var consumed := Apply(s, now, Consume(id, replacement));
            replacement in consumed.pending
            && var next := consumed.(pending := consumed.pending - {replacement});
               Inv(next) && next.pending == s.pending
  {
    ConsumeOutcome(s, now, id, replacement);
    StepKeepsInv(Apply(s, now, Consume(id, replacement)), now, Abandon(replacement));
  }

  lemma DisabledOutcome(s: State, now: nat, id: nat, replacement: nat, family: nat)
    requires Inv(s) && replacement !in s.issued && Judge(s, now, id) == Accepted
    ensures var consumed := Apply(s, now, Consume(id, replacement));
            var revoked := Apply(consumed, now, Revoke(family));
            replacement in revoked.pending
            && var next := revoked.(pending := revoked.pending - {replacement});
               Inv(next) && FamilyRevoked(next, family) && next.pending == s.pending
  {
    var consumed := Apply(s, now, Consume(id, replacement));
    ConsumeOutcome(s, now, id, replacement);
    RevokeOutcome(consumed, now, family);
    StepKeepsInv(Apply(consumed, now, Revoke(family)), now, Abandon(replacement));
  }

  lemma RotationOutcome(s: State, now: nat, id: nat, replacement: nat, family: nat, expires: nat)
    requires Inv(s) && replacement !in s.issued && Judge(s, now, id) == Accepted
    requires id in s.rows ==> s.rows[id].family == family
    ensures var consumed := Apply(s, now, Consume(id, replacement));
            replacement in consumed.pending
            && var next := Apply(consumed, now, Store(replacement, expires));
               Inv(next) && next.pending == s.pending && Rotated(next, id, replacement, family)
               && replacement in next.rows && next.rows[replacement] == Token(family, expires, false, false, None)
  {
    ConsumeOutcome(s, now, id, replacement);
    StepKeepsInv(Apply(s, now, Consume(id, replacement)), now, Store(replacement, expires));
    assert id in s.issued;
  }

  // ----- the service

  datatype RefreshError = RefreshRevoked | RefreshReplay | UserDisabled | StoreFailed

  /** The token table, and the service calls as sequences of its statements. */
  class AuthService {
    var rows: map<nat, Token>
    var pending: map<nat, nat>
    var issued: set<nat>
    var families: set<nat>

    constructor ()
      ensures Now() == EMPTY
    {
      rows, pending, issued, families := map[], map[], {}, {};
    }

    function Now(): State
      reads this
    {
      State(rows, pending, issued, families)
    }

    method ConsumeRefresh(now: nat, id: nat, replacement: nat) returns (answer: Answer)
      requires replacement !in issued
      modifies this
      ensures answer == Judge(old(Now()), now, id)
      ensures Now() == Apply(old(Now()), now, Consume(id, replacement))
    {
      if id !in rows {
        return Revoked;
      }
      var row := rows[id];
      if row.revoked || now > row.expires {
        return Revoked;
      }
      if row.used {
        return Replay;
      }
      rows := rows[id := row.(used := true, replacement := Some(replacement))];
      pending := pending[replacement := row.family];
      issued := issued + {replacement};
      return Accepted;
    }

    method StoreRefresh(now: nat, replacement: nat, expires: nat)
      requires replacement in pending
      modifies this
      ensures Now() == Apply(old(Now()), now, Store(replacement, expires))
    {
      rows := rows[replacement := Token(pending[replacement], expires, false, false, None)];
      pending := pending - {replacement};
    }

    method RevokeAll(now: nat, family: nat)
      modifies this
      ensures Now() == Apply(old(Now()), now, Revoke(family))
    {
      rows := RevokeFamily(rows, family);
    }

    /** Login: the family is new, and the token is its only head: unused, and nothing of the
        family under way. */
    method LogIn(now: nat, id: nat, family: nat, expires: nat)
      requires Inv(Now()) && id !in issued && family !in families
      modifies this
      ensures Inv(Now()) && Now() == Apply(old(Now()), now, Login(id, family, expires))
      ensures Head(Now(), id, family) && forall t :: Head(Now(), t, family) ==> t == id
      ensures id in rows && rows[id] == Token(family, expires, false, false, None)
      ensures now <= expires ==> Judge(Now(), now, id) == Accepted
      ensures OthersAsBefore(old(Now()), Now(), family)
    {
      LoginOutcome(Now(), now, id, family, expires);
      rows := rows[id := Token(family, expires, false, false, None)];
      issued, families := issued + {id}, families + {family};
    }

    /** Refresh run without interference: a pair only for a token that was accepted, and then
        the old token is used, the new one stored in the same family and unused; a replay or a
        disabled user leaves the whole family revoked. */
    method Refresh(now: nat, id: nat, family: nat, replacement: nat, expires: nat, active: bool, stored: bool)
      returns (result: Result<nat, RefreshError>)
      requires Inv(Now()) && replacement !in issued
      requires id in rows ==> rows[id].family == family
      modifies this
      ensures Inv(Now())
      ensures result.Ok? <==> Judge(old(Now()), now, id) == Accepted && active && stored
      ensures result.Ok? ==> result.value == replacement && Rotated(Now(), id, replacement, family)
      ensures result.Ok? ==>
                replacement in rows && rows[replacement] == Token(family, expires, false, false, None)
      ensures result == Err(RefreshReplay) <==> Judge(old(Now()), now, id) == Replay
      ensures result == Err(RefreshReplay) || result == Err(UserDisabled) ==> FamilyRevoked(Now(), family)
      ensures pending == old(pending)
    {
      hide Inv, Judge, Apply, Head, FamilyRevoked, Rotated;
      ghost var start := Now();
      ConsumeOutcome(start, now, id, replacement);
      var answer := ConsumeRefresh(now, id, replacement);
      if answer == Replay {
        RevokeOutcome(Now(), now, family);
        RevokeAll(now, family);
        return Err(RefreshReplay);
      }
      if answer == Revoked {
        return Err(RefreshRevoked);
      }
      if !active {
        DisabledOutcome(start, now, id, replacement, family);
        RevokeAll(now, family);
        pending := pending - {replacement};
        return Err(UserDisabled);
      }
      if !stored {
        AbandonOutcome(start, now, id, replacement);
        pending := pending - {replacement};
        return Err(StoreFailed);
      }
      RotationOutcome(start, now, id, replacement, family, expires);
      StoreRefresh(now, replacement, expires);
      return Ok(replacement);
    }

    /** Logout: every stored token of the family is refused from now on, and tokens of other
        families are as they were. */
    method LogOut(now: nat, family: nat)
      requires Inv(Now())
      modifies this
      ensures Inv(Now()) && pending == old(pending)
      ensures FamilyRevoked(Now(), family)
      ensures forall t, later :: t in rows && rows[t].family == family ==> Judge(Now(), later, t) == Revoked
      ensures OthersAsBefore(old(Now()), Now(), family)
    {
      RevokeOutcome(Now(), now, family);
      RevokeAll(now, family);
    }
  }
}
