/** The scripts on one provider's keys, and the failover loop over all providers. */
module ProviderRouting {
  import opened Common
  import S = ProviderSlots

  /** The Redis keys of one provider, changed in place by the scripts. */
  class ProviderKeys {
    const config: S.Config
    var slots: map<nat, nat>
    var slotsUntil: nat
    var cool: Option<nat>
    var invalid: bool
    var probeNeeded: bool
    var probe: Option<S.Probe>
    var failures: S.Failures
    var grants: map<nat, S.Grant>

    constructor (config: S.Config)
      ensures Now() == S.FRESH && this.config == config
    {
      this.config := config;
      slots, slotsUntil, cool, invalid, probeNeeded := map[], 0, None, false, false;
      probe, failures, grants := None, S.Failures(0, 0), map[];
    }

    function Now(): S.Provider
      reads this
    {
      S.Provider(slots, slotsUntil, cool, invalid, probeNeeded, probe, failures, grants)
    }

    /** The script of acquire. */
    method Acquire(now: nat, token: nat) returns (answer: S.Answer)
      modifies this
      ensures answer == S.Ask(old(Now()), config, now)
      ensures Now() == S.Take(old(Now()), config, now, token)
    {
      if invalid {
        return S.Invalid;
      }
      if cool.Some? && now < cool.value {
        return S.Cooling;
      }
      slots := S.LiveSlots(Now(), now);
      if |slots| >= config.maxConcurrency {
        return S.Full;
      }
      if probeNeeded {
        if probe.Some? && now < probe.value.until {
          return S.Full;
        }
        probe := Some(S.Probe(token, now + config.ttl));
      }
      slots := slots[token := now + config.ttl];
      slotsUntil := now + config.ttl;
      grants := grants[token := S.Grant(now + config.ttl, probeNeeded, false)];
      return S.Granted;
    }

    /** release: first the slot, then the probe if it is still ours. */
    method Release(now: nat, token: nat)
      modifies this
      ensures Now() == S.DropProbe(S.DropSlot(old(Now()), token), now, token)
    {
      slots := slots - {token};
      if token in grants {
        grants := grants[token := grants[token].(released := true)];
      }
      if probe.Some? && now < probe.value.until && probe.value.token == token {
        probe := None;
      }
    }

    /** recordHealth. */
    method RecordHealth(now: nat, health: S.Health)
      modifies this
      ensures Now() == S.RecordHealth(old(Now()), config, now, health)
    {
      match health {
        case Healthy => failures, cool, probeNeeded := S.Failures(0, 0), None, false;
        case Refused =>
        case Unusable => invalid := true;
        case Flaky(delay) =>
          var ttl := config.cooldown;
          if delay > ttl {
            ttl := delay;
          }
          var n := 1;
          if now < failures.until {
            n := failures.count + 1;
          }
          failures := S.Failures(n, now + 2 * ttl);
          if n >= config.threshold {
            cool, probeNeeded := Some(now + ttl), true;
          }
      }
    }
  }

  // ----- the loop

  datatype Code =
    | Configuration | Deferred | QueueUnavailable | InvalidOutput | ContentRefused | Upstream(status: nat)
    | Interrupted | RecorderFailed

  datatype RouteError = RouteError(code: Code, retryable: bool, retryAt: Option<nat>)

  datatype Provider = Provider(id: nat, enabled: bool, image: bool, text: bool)

  /** What acquire answers. */
  datatype Asked = Slot | Busy | Unusable | Cooling | RedisDown

  /** What one provider and the stores around it answer when the loop comes to it. */
  datatype Reply<Draft> = Reply(
    expired: bool, now: nat, asked: Asked, startRecorded: bool, output: Result<Draft, RouteError>,
    endRecorded: bool, healthRecorded: bool)

  predicate Eligible(p: Provider, withImage: bool) {
    p.enabled && if withImage then p.image else p.text
  }

  /** How the loop leaves a provider: with an answer, with an error, or for the next one. */
  datatype Verdict<Draft> = Answered(draft: Draft) | Stopped(error: RouteError) | Passed

  function Judge<Draft>(p: Provider, withImage: bool, r: Reply<Draft>): Verdict<Draft> {
    if r.expired then Stopped(RouteError(Interrupted, false, None))
    else if !Eligible(p, withImage) then Passed
    else match r.asked
      case RedisDown => Stopped(RouteError(QueueUnavailable, true, None))
      case Slot =>
        if !r.startRecorded || !r.endRecorded then Stopped(RouteError(RecorderFailed, false, None))
        else if !r.healthRecorded then Stopped(RouteError(QueueUnavailable, true, None))
        else if r.output.Ok? then Answered(r.output.value)
        else if r.output.error.code == ContentRefused then Stopped(r.output.error)
        else Passed
      case _ => Passed
  }

  /** The provider was called: a slot was held and the start of the call was recorded. */
  predicate Called<Draft>(p: Provider, withImage: bool, r: Reply<Draft>) {
    !r.expired && Eligible(p, withImage) && r.asked == Slot && r.startRecorded
  }

  /** The error a passed provider leaves as the last one. */
  function Left<Draft>(p: Provider, withImage: bool, r: Reply<Draft>): Option<RouteError> {
    if !Eligible(p, withImage) then None
    else match r.asked
      case Unusable => Some(RouteError(Configuration, false, None))
      case Cooling => Some(RouteError(Deferred, true, None))
      case Slot => if r.output.Err? then Some(r.output.error) else None
      case _ => None
  }

  /** A passed provider that may do better next time. */
  predicate Hopeful<Draft>(p: Provider, withImage: bool, r: Reply<Draft>) {
    Eligible(p, withImage)
    && (r.asked == Cooling || r.asked == Busy || (r.asked == Slot && r.output.Err? && r.output.error.retryable))
  }

  /** A passed provider that named a time to come back. */
  predicate Waits<Draft>(p: Provider, withImage: bool, r: Reply<Draft>) {
    Eligible(p, withImage) && (r.asked == Cooling || r.asked == Busy)
  }

  function Min(a: Option<nat>, b: nat): Option<nat> {
    if a.None? || b < a.value then Some(b) else a
  }

  /** Nobody before position n ended the round. */
  ghost predicate AllPassed<Draft>(providers: seq<Provider>, withImage: bool, replies: seq<Reply<Draft>>, n: nat)
    requires |replies| == |providers| && n <= |providers|
  {
    forall i :: 0 <= i < n ==> Judge(providers[i], withImage, replies[i]).Passed?
  }

  /** The earliest time any of the first n providers named. */
  ghost predicate IsEarliest<Draft>(
    providers: seq<Provider>, withImage: bool, replies: seq<Reply<Draft>>, n: nat, cooldown: nat, t: Option<nat>)
    requires |replies| == |providers| && n <= |providers|
  {
    (forall i :: 0 <= i < n && Waits(providers[i], withImage, replies[i]) ==>
       t.Some? && t.value <= replies[i].now + cooldown)
    && (t.Some? ==>
          exists i :: 0 <= i < n && Waits(providers[i], withImage, replies[i]) && t.value == replies[i].now + cooldown)
  }

  /** The error of the last of the first n providers that left one. */
  ghost predicate IsLast<Draft>(
    providers: seq<Provider>, withImage: bool, replies: seq<Reply<Draft>>, n: nat, e: Option<RouteError>)
    requires |replies| == |providers| && n <= |providers|
  {
    if e.None? then forall i :: 0 <= i < n ==> Left(providers[i], withImage, replies[i]).None?
    else exists i :: 0 <= i < n && LastAt(providers, withImage, replies, n, i, e)
  }

  ghost predicate LastAt<Draft>(
    providers: seq<Provider>, withImage: bool, replies: seq<Reply<Draft>>, n: nat, i: nat, e: Option<RouteError>)
    requires |replies| == |providers| && n <= |providers| && i < n
  {
    Left(providers[i], withImage, replies[i]) == e
    && forall j :: i < j < n ==> Left(providers[j], withImage, replies[j]).None?
  }

  ghost predicate AnyHopeful<Draft>(providers: seq<Provider>, withImage: bool, replies: seq<Reply<Draft>>, n: nat)
    requires |replies| == |providers| && n <= |providers|
  {
    exists i :: 0 <= i < n && Hopeful(providers[i], withImage, replies[i])
  }

  /** Positions of the providers called among the first n. */
  function CallsMade<Draft>(providers: seq<Provider>, withImage: bool, replies: seq<Reply<Draft>>, n: nat): seq<nat>
    requires |replies| == |providers| && n <= |providers|
  {
    if n == 0 then []
    else CallsMade(providers, withImage, replies, n - 1)
         + if Called(providers[n - 1], withImage, replies[n - 1]) then [n - 1] else []
  }

  class Router<Draft(0)> {
    /** Positions whose slot this round holds now. */
    var held: set<nat>
    /** Positions called, in order. */
    var calls: seq<nat>
    /** No call was ever made without the slot of its provider. */
    var covered: bool

    constructor ()
      ensures held == {} && calls == [] && covered
    {
      held, calls, covered := {}, [], true;
    }

    /** One eligible provider: take its slot, call it, record the call and its health, and
        let the slot go on every path. */
    method Try(i: nat, p: Provider, withImage: bool, r: Reply<Draft>) returns (verdict: Verdict<Draft>)
      requires held == {} && covered && Eligible(p, withImage) && !r.expired
      modifies this
      ensures held == {} && covered
      ensures calls == old(calls) + if Called(p, withImage, r) then [i] else []
      ensures verdict == Judge(p, withImage, r)
    {
      match r.asked {
        case RedisDown => return Stopped(RouteError(QueueUnavailable, true, None));
        case Unusable => return Passed;
        case Cooling => return Passed;
        case Busy => return Passed;
        case Slot =>
      }
      held := held + {i};
      if !r.startRecorded {
        held := held - {i};
        return Stopped(RouteError(RecorderFailed, false, None));
      }
      covered := covered && i in held;
      calls := calls + [i];
      if !r.endRecorded {
        held := held - {i};
        return Stopped(RouteError(RecorderFailed, false, None));
      }
      if !r.healthRecorded {
        held := held - {i};
        return Stopped(RouteError(QueueUnavailable, true, None));
      }
      held := held - {i};
      if r.output.Ok? {
        return Answered(r.output.value);
      }
      if r.output.error.code == ContentRefused {
        return Stopped(r.output.error);
      }
      return Passed;
    }

    /** route. Whatever happens, no slot is held at the end, every provider was called at most
        once and only under its slot; the draft is that of the first provider in order that
        produced a valid one, and an exhausted round reports the last error, whether anything
        may be retried, and the earliest time to do so. */
    method Route(providers: seq<Provider>, withImage: bool, replies: seq<Reply<Draft>>, cooldown: nat)
      returns (result: Result<Draft, RouteError>, ghost reached: nat)
      requires |replies| == |providers| && held == {} && calls == [] && covered
      modifies this
      ensures held == {} && covered
      ensures reached <= |providers| && AllPassed(providers, withImage, replies, reached)
      ensures calls == CallsMade(providers, withImage, replies, if reached < |providers| then reached + 1 else reached)
      ensures reached < |providers| ==>
                match Judge(providers[reached], withImage, replies[reached])
                case Answered(draft) => result == Ok(draft)
                case Stopped(error) => result == Err(error)
                case Passed => false
      ensures reached == |providers| ==> result.Err? && Exhausted(providers, withImage, replies, cooldown, result.error)
    {
      hide AnyHopeful, IsLast, IsEarliest, Judge, Called, Left, Hopeful, Waits, Eligible, Reports, Exhausted;
      var anyRetry, eligible := false, 0;
      var last: Option<RouteError> := None;
      var earliest: Option<nat> := None;
      NothingYet(providers, withImage, replies, cooldown);
      for i := 0 to |providers|
        invariant held == {} && covered
        invariant AllPassed(providers, withImage, replies, i)
        invariant calls == CallsMade(providers, withImage, replies, i)
        invariant anyRetry <==> AnyHopeful(providers, withImage, replies, i)
        invariant eligible == 0 <==> forall j :: 0 <= j < i ==> !Eligible(providers[j], withImage)
        invariant IsLast(providers, withImage, replies, i, last)
        invariant IsEarliest(providers, withImage, replies, i, cooldown, earliest)
      {
        reached := i;
        var p, r := providers[i], replies[i];
        EligibleMeans(p, withImage);
        if r.expired {
          ExpiredStops(p, withImage, r);
          return Err(RouteError(Interrupted, false, None)), reached;
        }
        LastMoves(providers, withImage, replies, i, last);
        HopeMoves(providers, withImage, replies, i);
        EarliestMoves(providers, withImage, replies, i, cooldown, earliest);
        if !p.enabled || (withImage && !p.image) || (!withImage && !p.text) {
          IneligiblePasses(p, withImage, r);
          continue;
        }
        eligible := eligible + 1;
        var verdict := Try(i, p, withImage, r);
        if verdict.Answered? {
          return Ok(verdict.draft), reached;
        }
        if verdict.Stopped? {
          return Err(verdict.error), reached;
        }
        PassedMeans(p, withImage, r);
        if r.asked == Unusable {
          last := Some(RouteError(Configuration, false, None));
        } else if r.asked == Cooling {
          last := Some(RouteError(Deferred, true, None));
        } else if r.asked == Slot {
          last := Some(r.output.error);
          anyRetry := anyRetry || r.output.error.retryable;
        }
        if r.asked == Cooling || r.asked == Busy {
          anyRetry := true;
          earliest := Min(earliest, r.now + cooldown);
        }
      }
      reached := |providers|;
      if eligible == 0 {
        NobodyEligible(providers, withImage, replies, cooldown);
        return Err(RouteError(Configuration, false, None)), reached;
      }
      var final := RouteError(Deferred, false, None);
      if last.Some? {
        final := last.value;
      }
      final := final.(retryable := anyRetry);
      if earliest.Some? {
        final := final.(retryAt := earliest);
      }
      RoundReports(providers, withImage, replies, cooldown, last, earliest, anyRetry);
      return Err(final), reached;
    }
  }

  /** The error a round reports when no provider ended it. */
  ghost predicate Exhausted<Draft>(
    providers: seq<Provider>, withImage: bool, replies: seq<Reply<Draft>>, cooldown: nat, error: RouteError)
    requires |replies| == |providers|
  {
    if forall i :: 0 <= i < |providers| ==> !Eligible(providers[i], withImage)
    then error == RouteError(Configuration, false, None)
    else (error.retryable <==> AnyHopeful(providers, withImage, replies, |providers|))
         && exists last: Option<RouteError>, earliest: Option<nat> ::
              Reports(providers, withImage, replies, cooldown, last, earliest, error)
  }

  ghost predicate Reports<Draft>(
    providers: seq<Provider>, withImage: bool, replies: seq<Reply<Draft>>, cooldown: nat,
    last: Option<RouteError>, earliest: Option<nat>, error: RouteError)
    requires |replies| == |providers|
  {
    IsLast(providers, withImage, replies, |providers|, last)
    && IsEarliest(providers, withImage, replies, |providers|, cooldown, earliest)
    && error.code == (if last.Some? then last.value.code else Deferred)
    && (earliest.Some? ==> error.retryAt == earliest)
    && (earliest.None? && last.Some? ==> error.retryAt == last.value.retryAt)
  }

  /** When a provider ends the round with its draft, when the loop goes on to the next one, and
      when it is called at all, by what it and the stores around it answered. */
  lemma VerdictByFields<Draft>(p: Provider, withImage: bool, r: Reply<Draft>)
    ensures var able := p.enabled && ((withImage && p.image) || (!withImage && p.text));
            var done := r.startRecorded && r.endRecorded && r.healthRecorded;
            var verdict := Judge(p, withImage, r);
            (Called(p, withImage, r) <==> !r.expired && able && r.asked == Slot && r.startRecorded)
            && (verdict.Answered? <==> !r.expired && able && r.asked == Slot && done && r.output.Ok?)
            && (verdict.Answered? ==> verdict.draft == r.output.value)
            && (verdict.Passed? <==>
                  !r.expired
                  && (!able || r.asked == Busy || r.asked == Unusable || r.asked == Cooling
                      || (r.asked == Slot && done && r.output.Err? && r.output.error.code != ContentRefused)))
            && (verdict.Stopped? && r.asked == RedisDown && !r.expired ==> verdict.error.retryable)
  {
  }

  lemma EligibleMeans(p: Provider, withImage: bool)
    ensures Eligible(p, withImage) <==> !(!p.enabled || (withImage && !p.image) || (!withImage && !p.text))
  {
  }

  lemma ExpiredStops<Draft>(p: Provider, withImage: bool, r: Reply<Draft>)
    requires r.expired
    ensures Judge(p, withImage, r) == Stopped(RouteError(Interrupted, false, None)) && !Called(p, withImage, r)
  {
  }

  lemma IneligiblePasses<Draft>(p: Provider, withImage: bool, r: Reply<Draft>)
    requires !r.expired && !Eligible(p, withImage)
    ensures Judge(p, withImage, r).Passed? && !Called(p, withImage, r) && Left(p, withImage, r).None?
    ensures !Hopeful(p, withImage, r) && !Waits(p, withImage, r)
  {
  }

  /** What the loop keeps of a provider it asked and passed. */
  lemma PassedMeans<Draft>(p: Provider, withImage: bool, r: Reply<Draft>)
    requires !r.expired && Eligible(p, withImage) && Judge(p, withImage, r).Passed?
    ensures r.asked == Slot ==> r.output.Err?
    ensures Left(p, withImage, r) ==
            if r.asked == Unusable then Some(RouteError(Configuration, false, None))
            else if r.asked == Cooling then Some(RouteError(Deferred, true, None))
            else if r.asked == Slot then Some(r.output.error)
            else None
    ensures Hopeful(p, withImage, r) <==>
            r.asked == Cooling || r.asked == Busy || (r.asked == Slot && r.output.error.retryable)
    ensures Waits(p, withImage, r) <==> r.asked == Cooling || r.asked == Busy
  {
  }

  lemma NobodyEligible<Draft>(providers: seq<Provider>, withImage: bool, replies: seq<Reply<Draft>>, cooldown: nat)
    requires |replies| == |providers| && forall i :: 0 <= i < |providers| ==> !Eligible(providers[i], withImage)
    ensures Exhausted(providers, withImage, replies, cooldown, RouteError(Configuration, false, None))
  {
    hide Eligible, AnyHopeful, Reports;
  }

  /** The error the loop puts together at the end is the one an exhausted round reports. */
  lemma RoundReports<Draft>(
    providers: seq<Provider>, withImage: bool, replies: seq<Reply<Draft>>, cooldown: nat,
    last: Option<RouteError>, earliest: Option<nat>, anyRetry: bool)
    requires |replies| == |providers| && !(forall i :: 0 <= i < |providers| ==> !Eligible(providers[i], withImage))
    requires IsLast(providers, withImage, replies, |providers|, last)
    requires IsEarliest(providers, withImage, replies, |providers|, cooldown, earliest)
    requires anyRetry <==> AnyHopeful(providers, withImage, replies, |providers|)
    ensures var e := (if last.Some? then last.value else RouteError(Deferred, false, None)).(retryable := anyRetry);
            Exhausted(providers, withImage, replies, cooldown,
                      if earliest.Some? then e.(retryAt := earliest) else e)
  {
    hide Eligible, AnyHopeful, IsLast, IsEarliest;
    var e := (if last.Some? then last.value else RouteError(Deferred, false, None)).(retryable := anyRetry);
    assert Reports(providers, withImage, replies, cooldown, last, earliest,
                   if earliest.Some? then e.(retryAt := earliest) else e);
  }

  lemma NothingYet<Draft>(providers: seq<Provider>, withImage: bool, replies: seq<Reply<Draft>>, cooldown: nat)
    requires |replies| == |providers|
    ensures IsLast(providers, withImage, replies, 0, None)
            && IsEarliest(providers, withImage, replies, 0, cooldown, None)
    ensures !AnyHopeful(providers, withImage, replies, 0)
  {
  }

  lemma HopeMoves<Draft>(providers: seq<Provider>, withImage: bool, replies: seq<Reply<Draft>>, n: nat)
    requires |replies| == |providers| && n < |providers|
    ensures AnyHopeful(providers, withImage, replies, n + 1) <==>
            AnyHopeful(providers, withImage, replies, n) || Hopeful(providers[n], withImage, replies[n])
  {
  }

  lemma EarliestMoves<Draft>(
    providers: seq<Provider>, withImage: bool, replies: seq<Reply<Draft>>, n: nat, cooldown: nat, t: Option<nat>)
    requires |replies| == |providers| && n < |providers| && IsEarliest(providers, withImage, replies, n, cooldown, t)
    ensures IsEarliest(providers, withImage, replies, n + 1, cooldown,
                       if Waits(providers[n], withImage, replies[n]) then Min(t, replies[n].now + cooldown) else t)
  {
  }

  /** The last error after one more provider. */
  lemma LastMoves<Draft>(providers: seq<Provider>, withImage: bool, replies: seq<Reply<Draft>>, n: nat,
      e: Option<RouteError>)
    requires |replies| == |providers| && n < |providers| && IsLast(providers, withImage, replies, n, e)
    ensures var left := Left(providers[n], withImage, replies[n]);
            IsLast(providers, withImage, replies, n + 1, if left.Some? then left else e)
  {
    var left := Left(providers[n], withImage, replies[n]);
    if left.Some? {
      assert LastAt(providers, withImage, replies, n + 1, n, left);
    } else if e.Some? {
      var i :| 0 <= i < n && LastAt(providers, withImage, replies, n, i, e);
      assert LastAt(providers, withImage, replies, n + 1, i, e);
    }
  }

  /** Calls go through the providers in order, so none is called twice in a round; they are
      exactly those that gave a slot and whose call was recorded. */
  lemma {:induction false} CallsAscend<Draft>(providers: seq<Provider>, withImage: bool, replies: seq<Reply<Draft>>,
      n: nat)
    requires |replies| == |providers| && n <= |providers|
    ensures var calls := CallsMade(providers, withImage, replies, n);
            (forall i, j :: 0 <= i < j < |calls| ==> calls[i] < calls[j])
            && (forall i :: 0 <= i < |calls| ==>
                  calls[i] < n && Called(providers[calls[i]], withImage, replies[calls[i]]))
            && forall k :: 0 <= k < n && Called(providers[k], withImage, replies[k]) ==> k in calls
  {
    if n > 0 {
      CallsAscend(providers, withImage, replies, n - 1);
      var before := CallsMade(providers, withImage, replies, n - 1);
      var calls := CallsMade(providers, withImage, replies, n);
      forall k | 0 <= k < n && Called(providers[k], withImage, replies[k]) ensures k in calls {
        if k == n - 1 {
          assert calls[|before|] == k;
        } else {
          assert k in before;
        }
      }
    }
  }
}
