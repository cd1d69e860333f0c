/** The Redis semaphore of one model provider: slots that expire, a cool-down, and a probe
    that lets one caller through after failures. */
module ProviderSlots {
  import opened Common

  datatype Probe = Probe(token: nat, until: nat)

  datatype Failures = Failures(count: nat, until: nat)

  /** A slot handed out: when it lapses, and whether the provider was to be probed then. */
  datatype Grant = Grant(expires: nat, probing: bool, released: bool)

  /** The keys of one provider, and the grants its callers hold or held. */
  datatype Provider = Provider(
    slots: map<nat, nat>, slotsUntil: nat, cool: Option<nat>, invalid: bool,
    probeNeeded: bool, probe: Option<Probe>, failures: Failures, grants: map<nat, Grant>)

  datatype Config = Config(maxConcurrency: nat, ttl: nat, cooldown: nat, threshold: nat)

  /** How a call ended, for recordHealth. */
  datatype Health = Healthy | Refused | Unusable | Flaky(delay: nat)

  datatype Answer = Invalid | Cooling | Full | Granted

  datatype Event =
    | Acquire(token: nat)
    | ReleaseSlot(token: nat)
    | ReleaseProbe(token: nat)
    | Record(health: Health)
    | Wait

  const FRESH := Provider(map[], 0, None, false, false, None, Failures(0, 0), map[])

  /** A key with PX exists until its time has come. */
  predicate Cools(p: Provider, now: nat) {
    p.cool.Some? && now < p.cool.value
  }

  predicate ProbeTaken(p: Provider, now: nat) {
    p.probe.Some? && now < p.probe.value.until
  }

  /** The set as a script finds it: gone with its key, and lapsed members removed. */
  function LiveSlots(p: Provider, now: nat): map<nat, nat> {
    if p.slotsUntil <= now then map[] else map t | t in p.slots && now < p.slots[t] :: p.slots[t]
  }

  /** The script of acquire. */
  function Ask(p: Provider, c: Config, now: nat): Answer {
    if p.invalid then Invalid
    else if Cools(p, now) then Cooling
    else if |LiveSlots(p, now)| >= c.maxConcurrency then Full
    else if p.probeNeeded && ProbeTaken(p, now) then Full
    else Granted
  }

  function Take(p: Provider, c: Config, now: nat, token: nat): Provider {
    match Ask(p, c, now)
    case Granted =>
      p.(slots := LiveSlots(p, now)[token := now + c.ttl], slotsUntil := now + c.ttl,
         probe := if p.probeNeeded then Some(Probe(token, now + c.ttl)) else p.probe,
         grants := p.grants[token := Grant(now + c.ttl, p.probeNeeded, false)])
    case Full => p.(slots := LiveSlots(p, now))
    case _ => p
  }

  /** The first half of release; a crash may leave out the second. */
  function DropSlot(p: Provider, token: nat): Provider {
    p.(slots := p.slots - {token},
       grants := if token in p.grants then p.grants[token := p.grants[token].(released := true)] else p.grants)
  }

  function DropProbe(p: Provider, now: nat, token: nat): Provider {
    if ProbeTaken(p, now) && p.probe.value.token == token then p.(probe := None) else p
  }

  /** recordHealth. */
  function RecordHealth(p: Provider, c: Config, now: nat, health: Health): Provider {
    match health
    case Healthy => p.(failures := Failures(0, 0), cool := None, probeNeeded := false)
    case Refused => p
    case Unusable => p.(invalid := true)
    case Flaky(delay) =>
      var ttl := if delay > c.cooldown then delay else c.cooldown;
      var n := if now < p.failures.until then p.failures.count + 1 else 1;
      var counted := p.(failures := Failures(n, now + 2 * ttl));
      if n >= c.threshold then counted.(cool := Some(now + ttl), probeNeeded := true) else counted
  }

  /** Tokens are fresh, and a probe is given up only after its slot. */
  predicate Enabled(p: Provider, event: Event) {
    match event
    case Acquire(token) => token !in p.grants
    case ReleaseSlot(token) => token in p.grants
    case ReleaseProbe(token) => token in p.grants && p.grants[token].released
    case _ => true
  }

  function Apply(p: Provider, c: Config, now: nat, event: Event): Provider {
    match event
    case Acquire(token) => Take(p, c, now, token)
    case ReleaseSlot(token) => DropSlot(p, token)
    case ReleaseProbe(token) => DropProbe(p, now, token)
    case Record(health) => RecordHealth(p, c, now, health)
    case Wait => p
  }

  // ----- what always holds

  predicate Holding(g: Grant, now: nat) {
    !g.released && now < g.expires
  }

  function Holders(p: Provider, now: nat): set<nat> {
    set t | t in p.grants && Holding(p.grants[t], now)
  }

  function Probers(p: Provider, now: nat): set<nat> {
    set t | t in p.grants && Holding(p.grants[t], now) && p.grants[t].probing
  }

  /** A grant still held sits in the set under its own expiry. */
  ghost predicate HeldInSet(p: Provider, now: nat) {
    forall t :: t in p.grants && Holding(p.grants[t], now) ==> t in p.slots && p.slots[t] == p.grants[t].expires
  }

  /** No member outlives the key of the set. */
  ghost predicate SetLives(p: Provider, c: Config, now: nat) {
    (forall t :: t in p.slots ==> t in p.grants && p.slots[t] <= p.slotsUntil) && p.slotsUntil <= now + c.ttl
  }

  /** A probing grant still held owns the probe. */
  ghost predicate ProberOwns(p: Provider, now: nat) {
    forall t :: t in p.grants && Holding(p.grants[t], now) && p.grants[t].probing ==>
      p.probe == Some(Probe(t, p.grants[t].expires))
  }

  ghost predicate Inv(p: Provider, c: Config, now: nat) {
    HeldInSet(p, now) && SetLives(p, c, now) && |LiveSlots(p, now)| <= c.maxConcurrency && ProberOwns(p, now)
  }

  lemma FreshInv(c: Config, now: nat)
    ensures Inv(FRESH, c, now)
  {
    assert LiveSlots(FRESH, now) == map[];
  }

  lemma SmallerMap(a: map<nat, nat>, b: map<nat, nat>)
    requires a.Keys <= b.Keys
    ensures |a| <= |b|
  {
    assert |a.Keys| <= |b.Keys| by {
      SmallerSet(a.Keys, b.Keys);
    }
  }

  lemma {:induction false} SmallerSet(a: set<nat>, b: set<nat>)
    requires a <= b
    ensures |a| <= |b|
  {
    if a != {} {
      var x :| x in a;
      SmallerSet(a - {x}, b - {x});
    }
  }

  /** Time only lets slots lapse. */
  lemma TimeKeepsInv(p: Provider, c: Config, now: nat, later: nat)
    requires Inv(p, c, now) && now <= later
    ensures Inv(p, c, later)
  {
    SmallerMap(LiveSlots(p, later), LiveSlots(p, now));
  }

  lemma HeldIsLive(p: Provider, c: Config, now: nat, t: nat)
    requires HeldInSet(p, now) && SetLives(p, c, now) && t in p.grants && Holding(p.grants[t], now)
    ensures t in LiveSlots(p, now) && LiveSlots(p, now)[t] == p.grants[t].expires
  {
  }

  lemma TakeKeepsSet(p: Provider, c: Config, now: nat, token: nat)
    requires HeldInSet(p, now) && SetLives(p, c, now) && token !in p.grants
    ensures HeldInSet(Take(p, c, now, token), now) && SetLives(Take(p, c, now, token), c, now)
  {
    assert forall t :: t in LiveSlots(p, now) ==> t in p.slots && LiveSlots(p, now)[t] == p.slots[t];
    hide Ask, LiveSlots;
    var next := Take(p, c, now, token);
    forall t | t in next.grants && Holding(next.grants[t], now)
      ensures t in next.slots && next.slots[t] == next.grants[t].expires
    {
      if t in p.grants {
        HeldIsLive(p, c, now, t);
      }
    }
  }

  lemma GrantedHasRoom(p: Provider, c: Config, now: nat)
    requires Ask(p, c, now) == Granted
    ensures |LiveSlots(p, now)| < c.maxConcurrency
  {
    hide LiveSlots;
  }

  lemma LiveAfterTake(p: Provider, c: Config, now: nat, token: nat)
    ensures LiveSlots(Take(p, c, now, token), now).Keys <=
            LiveSlots(p, now).Keys + if Ask(p, c, now) == Granted then {token} else {}
  {
    hide Ask;
  }

  lemma TakeKeepsBound(p: Provider, c: Config, now: nat, token: nat)
    requires SetLives(p, c, now) && |LiveSlots(p, now)| <= c.maxConcurrency && token !in p.grants
    ensures |LiveSlots(Take(p, c, now, token), now)| <= c.maxConcurrency
  {
    hide SetLives, Ask, Take, LiveSlots;
    var live, next := LiveSlots(p, now), LiveSlots(Take(p, c, now, token), now);
    LiveAfterTake(p, c, now, token);
    if Ask(p, c, now) == Granted {
      GrantedHasRoom(p, c, now);
      SmallerSet(next.Keys, live.Keys + {token});
    } else {
      SmallerSet(next.Keys, live.Keys);
    }
    assert |next| == |next.Keys| && |live| == |live.Keys|;
  }

  lemma TakeKeepsProber(p: Provider, c: Config, now: nat, token: nat)
    requires ProberOwns(p, now) && token !in p.grants
    ensures ProberOwns(Take(p, c, now, token), now)
  {
    hide LiveSlots;
  }

  lemma DropSlotShrinks(p: Provider, now: nat, token: nat)
    ensures LiveSlots(DropSlot(p, token), now).Keys <= LiveSlots(p, now).Keys
  {
  }

  lemma DropSlotKeepsHolders(p: Provider, c: Config, now: nat, token: nat)
    requires HeldInSet(p, now) && SetLives(p, c, now) && ProberOwns(p, now) && token in p.grants
    ensures HeldInSet(DropSlot(p, token), now) && SetLives(DropSlot(p, token), c, now)
            && ProberOwns(DropSlot(p, token), now)
  {
    var next := DropSlot(p, token);
    assert forall t :: t in next.grants && Holding(next.grants[t], now) ==>
                         t in p.grants && t != token && next.grants[t] == p.grants[t];
    assert forall t :: t in next.slots ==> t in p.slots && next.slots[t] == p.slots[t];
  }

  lemma DropSlotKeepsInv(p: Provider, c: Config, now: nat, token: nat)
    requires Inv(p, c, now) && token in p.grants
    ensures Inv(DropSlot(p, token), c, now)
  {
    hide LiveSlots, HeldInSet, SetLives, ProberOwns, DropSlot;
    DropSlotShrinks(p, now, token);
    SmallerMap(LiveSlots(DropSlot(p, token), now), LiveSlots(p, now));
    DropSlotKeepsHolders(p, c, now, token);
  }

  /** Steps that touch neither the set nor a probe somebody holds. */
  lemma SameSlotsSameInv(p: Provider, c: Config, now: nat, next: Provider)
    requires Inv(p, c, now) && next.slots == p.slots && next.slotsUntil == p.slotsUntil && next.grants == p.grants
    requires next.probe == p.probe || forall t :: t in p.grants && Holding(p.grants[t], now) && p.grants[t].probing ==>
               p.probe.Some? && p.probe.value.token != t
    ensures Inv(next, c, now)
  {
    SmallerMap(LiveSlots(next, now), LiveSlots(p, now));
  }

  /** Whoever gives up the probe has given up its slot, so no holder leans on it. */
  lemma ReleasedProbeUnused(p: Provider, c: Config, now: nat, token: nat)
    requires Inv(p, c, now) && token in p.grants && p.grants[token].released
    ensures DropProbe(p, now, token).probe == p.probe
            || forall t :: t in p.grants && Holding(p.grants[t], now) && p.grants[t].probing ==>
                 p.probe.Some? && p.probe.value.token != t
  {
    hide LiveSlots, HeldInSet, SetLives;
  }

  lemma OthersKeepInv(p: Provider, c: Config, now: nat, event: Event)
    requires Inv(p, c, now) && Enabled(p, event) && !event.Acquire?
    ensures Inv(Apply(p, c, now, event), c, now)
  {
    hide Inv;
    match event {
      case ReleaseSlot(token) => DropSlotKeepsInv(p, c, now, token);
      case ReleaseProbe(token) =>
        ReleasedProbeUnused(p, c, now, token);
        SameSlotsSameInv(p, c, now, DropProbe(p, now, token));
      case Record(health) => SameSlotsSameInv(p, c, now, RecordHealth(p, c, now, health));
      case Wait =>
    }
  }

  lemma StepKeepsInv(p: Provider, c: Config, now: nat, event: Event)
    requires Inv(p, c, now) && Enabled(p, event)
    ensures Inv(Apply(p, c, now, event), c, now)
  {
    hide HeldInSet, SetLives, ProberOwns, LiveSlots, Ask;
    if event.Acquire? {
      TakeKeepsSet(p, c, now, event.token);
      TakeKeepsBound(p, c, now, event.token);
      TakeKeepsProber(p, c, now, event.token);
    } else {
      OthersKeepInv(p, c, now, event);
    }
  }

  // ----- what the scripts answer

  /** Each answer by the keys: an unusable provider is refused as such, one inside its cool-down
      as cooling; a slot is granted while fewer than the limit are unexpired and, when the
      provider is to be probed, nobody else's probe is running. */
  lemma AskMeaning(p: Provider, c: Config, now: nat)
    ensures Ask(p, c, now) == Invalid <==> p.invalid
    ensures Ask(p, c, now) == Cooling <==> !p.invalid && p.cool.Some? && now < p.cool.value
    ensures Ask(p, c, now) == Granted <==>
            !p.invalid && (p.cool == None || p.cool.value <= now) && |LiveSlots(p, now)| < c.maxConcurrency
            && (p.probeNeeded ==> p.probe == None || p.probe.value.until <= now)
    ensures forall t ::
              t in LiveSlots(p, now) <==> t in p.slots && now < p.slots[t] && now < p.slotsUntil
  {
  }

  /** A granted slot lapses `ttl` from now, and so does the probe a probing caller takes with
      it; without a grant nobody gets anything. */
  lemma TakeMeaning(p: Provider, c: Config, now: nat, token: nat)
    requires token !in p.grants
    ensures var next := Take(p, c, now, token);
            if Ask(p, c, now) == Granted then
              next.grants == p.grants[token := Grant(now + c.ttl, p.probeNeeded, false)]
              && token in next.slots && next.slots[token] == now + c.ttl && next.slotsUntil == now + c.ttl
              && next.probe == if p.probeNeeded then Some(Probe(token, now + c.ttl)) else p.probe
            else
              next.grants == p.grants && next.probe == p.probe
              && forall t :: t in next.slots ==> t in p.slots && next.slots[t] == p.slots[t]
  {
  }

  /** Failures one after the other, with no success between them. */
  ghost function FailAll(p: Provider, c: Config, times: seq<nat>, delays: seq<nat>): Provider
    requires |times| == |delays|
    decreases |times|
  {
    if times == [] then p
    else
      var n := |times| - 1;
      RecordHealth(FailAll(p, c, times[..n], delays[..n]), c, times[n], Flaky(delays[n]))
  }

  /** How long a failure counts against the provider before the cool-down could end. */
  function Pause(c: Config, delay: nat): (pause: nat)
    ensures pause >= delay && pause >= c.cooldown && (pause == delay || pause == c.cooldown)
  {
    if delay > c.cooldown then delay else c.cooldown
  }

  /** Failures that follow each other within twice their pause are counted together, and from
      the threshold on each of them starts a cool-down and calls for a probe. */
  lemma {:induction false} FailuresAddUp(p: Provider, c: Config, times: seq<nat>, delays: seq<nat>)
    requires |times| == |delays| > 0 && p.failures.until <= times[0]
    requires forall i :: 0 < i < |times| ==> times[i] < times[i - 1] + 2 * Pause(c, delays[i - 1])
    ensures var n := |times|;
            var next, last := FailAll(p, c, times, delays), times[n - 1];
            next.failures == Failures(n, last + 2 * Pause(c, delays[n - 1])) && next.invalid == p.invalid
            && next.slots == p.slots && next.slotsUntil == p.slotsUntil && next.probe == p.probe
            && if n >= c.threshold then next.cool == Some(last + Pause(c, delays[n - 1])) && next.probeNeeded
               else next.cool == p.cool && next.probeNeeded == p.probeNeeded
    decreases |times|
  {
    var n := |times| - 1;
    if n == 0 {
      assert FailAll(p, c, times[..0], delays[..0]) == p;
    } else {
      FailuresAddUp(p, c, times[..n], delays[..n]);
      assert times[n] < times[n - 1] + 2 * Pause(c, delays[n - 1]);
    }
  }

  /** A usable provider is refused as cooling for the pause after the failure that reached the
      threshold, and no longer; below the threshold failures change no answer. */
  lemma ThresholdCools(p: Provider, c: Config, times: seq<nat>, delays: seq<nat>, now: nat)
    requires |times| == |delays| > 0 && p.failures.until <= times[0] && !p.invalid
    requires forall i :: 0 < i < |times| ==> times[i] < times[i - 1] + 2 * Pause(c, delays[i - 1])
    ensures var n := |times|;
            var next := FailAll(p, c, times, delays);
            if n >= c.threshold
            then Ask(next, c, now) == Cooling <==> now < times[n - 1] + Pause(c, delays[n - 1])
            else Ask(next, c, now) == Ask(p, c, now)
  {
    FailuresAddUp(p, c, times, delays);
  }

  /** A success forgets the failures, ends the cool-down and calls off the probe; refused
      content counts neither way. */
  lemma SuccessRestores(p: Provider, c: Config, now: nat, later: nat)
    ensures var next := RecordHealth(p, c, now, Healthy);
            next.failures.until <= later && (Ask(next, c, later) == Granted <==>
                                             !p.invalid && |LiveSlots(p, later)| < c.maxConcurrency)
    ensures RecordHealth(p, c, now, Refused) == p
  {
    assert LiveSlots(RecordHealth(p, c, now, Healthy), later) == LiveSlots(p, later);
  }

  // ----- runs

  datatype Run = Run(states: seq<Provider>, steps: seq<(nat, Event)>)

  /** Any interleaving of callers; the clock moves on before a step. */
  ghost predicate ValidRun(run: Run, c: Config) {
    |run.states| == |run.steps| + 1 && run.states[0] == FRESH
    && (forall i :: 0 <= i < |run.steps| ==>
          Enabled(run.states[i], run.steps[i].1)
          && run.states[i + 1] == Apply(run.states[i], c, run.steps[i].0, run.steps[i].1))
    && forall i, k :: 0 <= i < k < |run.steps| ==> run.steps[i].0 <= run.steps[k].0
  }

  lemma {:induction false} InvAlways(run: Run, c: Config, i: nat, now: nat)
    requires ValidRun(run, c) && i < |run.states| && (i > 0 ==> run.steps[i - 1].0 <= now)
    ensures Inv(run.states[i], c, now)
  {
    hide Inv;
    if i == 0 {
      FreshInv(c, now);
    } else {
      InvAlways(run, c, i - 1, run.steps[i - 1].0);
      StepKeepsInv(run.states[i - 1], c, run.steps[i - 1].0, run.steps[i - 1].1);
      TimeKeepsInv(run.states[i], c, run.steps[i - 1].0, now);
    }
  }

  lemma AtMostOne(s: set<nat>)
    requires forall x, y :: x in s && y in s ==> x == y
    ensures |s| <= 1
  {
    if s != {} {
      var x :| x in s;
      assert s == {x};
    }
  }

  /** At any moment of any run, unexpired unreleased grants never exceed the limit, and at most
      one of them was made while the provider was to be probed. */
  lemma SlotsBounded(run: Run, c: Config, i: nat, now: nat)
    requires ValidRun(run, c) && i < |run.states| && (i > 0 ==> run.steps[i - 1].0 <= now)
    ensures |Holders(run.states[i], now)| <= c.maxConcurrency
    ensures |Probers(run.states[i], now)| <= 1
  {
    InvAlways(run, c, i, now);
    hide ValidRun;
    var p := run.states[i];
    SmallerSet(Holders(p, now), LiveSlots(p, now).Keys);
    AtMostOne(Probers(p, now));
  }

  lemma StepInto(run: Run, c: Config, k: nat)
    requires ValidRun(run, c) && 0 < k < |run.states|
    ensures Enabled(run.states[k - 1], run.steps[k - 1].1)
    ensures run.states[k] == Apply(run.states[k - 1], c, run.steps[k - 1].0, run.steps[k - 1].1)
  {
    var i := k - 1;
    assert run.states[i + 1] == Apply(run.states[i], c, run.steps[i].0, run.steps[i].1);
  }

  /** A grant stays what it was made, and one made while probing is a probing one. */
  lemma GrantIsProbing(p: Provider, c: Config, now: nat, event: Event, token: nat)
    requires Enabled(p, event) && p.probeNeeded && token in Apply(p, c, now, event).grants
    ensures if token in p.grants then Apply(p, c, now, event).grants[token].probing == p.grants[token].probing
            else Apply(p, c, now, event).grants[token].probing
  {
    hide Ask, LiveSlots;
  }

  lemma {:induction false} GrantsSinceAreProbing(run: Run, c: Config, i: nat, k: nat, token: nat)
    requires ValidRun(run, c) && i <= k < |run.states|
    requires forall j :: i <= j <= k ==> run.states[j].probeNeeded
    requires token !in run.states[i].grants && token in run.states[k].grants
    ensures run.states[k].grants[token].probing
    decreases k - i
  {
    if i < k {
      StepInto(run, c, k);
      hide Apply, Enabled, ValidRun;
      var before, step := run.states[k - 1], run.steps[k - 1];
      GrantIsProbing(before, c, step.0, step.1, token);
      if token in before.grants {
        GrantsSinceAreProbing(run, c, i, k - 1, token);
      }
    }
  }

  /** The grants made since an earlier state and still held. */
  function HeldSince(earlier: Provider, p: Provider, now: nat): set<nat> {
    set t | t in p.grants && Holding(p.grants[t], now) && t !in earlier.grants
  }

  /** From the moment a provider must be probed for as long as it must be, at most one grant
      made since is alive. */
  lemma OneProbeAtATime(run: Run, c: Config, i: nat, k: nat, now: nat)
    requires ValidRun(run, c) && i <= k < |run.states| && (k > 0 ==> run.steps[k - 1].0 <= now)
    requires forall j :: i <= j <= k ==> run.states[j].probeNeeded
    ensures |HeldSince(run.states[i], run.states[k], now)| <= 1
  {
    var since := HeldSince(run.states[i], run.states[k], now);
    forall t | t in since ensures t in Probers(run.states[k], now) {
      GrantsSinceAreProbing(run, c, i, k, t);
    }
    SlotsBounded(run, c, k, now);
    SmallerSet(since, Probers(run.states[k], now));
  }

  /** A provider found unusable is never asked again. */
  lemma {:induction false} UnusableForGood(run: Run, c: Config, i: nat, k: nat, now: nat)
    requires ValidRun(run, c) && i < k < |run.states| && run.steps[i].1 == Record(Unusable)
    ensures run.states[k].invalid && Ask(run.states[k], c, now) == Invalid
    decreases k
  {
    StepInto(run, c, k);
    if i + 1 < k {
      UnusableForGood(run, c, i, k - 1, now);
    }
    hide ValidRun, LiveSlots;
    assert run.states[k].invalid;
  }
}
