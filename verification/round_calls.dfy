/** One round of the router and the call rows it leaves: the recorder accepts the calls of the
    walk as they come, and keeps exactly those. */
module RoundCalls {
  import opened Common
  import opened ImportQueue
  import ProviderRouting

  /** The INSERTs of one round, the k-th at time `times[k]`. */
  ghost function Recorded(job: Job, token: nat, times: seq<nat>, calls: seq<nat>): Option<Job>
    requires |times| == |calls|
    decreases |calls|
  {
    if calls == [] then Some(job)
    else
      var n := |calls| - 1;
      match Recorded(job, token, times[..n], calls[..n])
      case None => None
      case Some(next) => RecordCall(next, times[n], token, calls[n])
  }

  function Providers(calls: seq<Call>): seq<nat> {
    if calls == [] then []
    else Providers(calls[..|calls| - 1]) + [calls[|calls| - 1].provider]
  }

  ghost predicate Ascending(calls: seq<nat>) {
    forall i, j :: 0 <= i < j < |calls| ==> calls[i] < calls[j]
  }

  /** The attempt a worker's claim names, still there. */
  predicate AttemptThere(job: Job, token: nat) {
    token in job.claims && job.claims[token].attempt in job.attempts
  }

  function CallsOf(job: Job, token: nat): seq<Call>
    requires AttemptThere(job, token)
  {
    job.attempts[job.claims[token].attempt].calls
  }

  lemma ProvidersGrow(calls: seq<Call>, call: Call)
    ensures Providers(calls + [call]) == Providers(calls) + [call.provider]
  {
    assert (calls + [call])[..|calls|] == calls;
  }

  lemma RecordedOnce(job: Job, now: nat, token: nat, position: nat)
    requires Holds(job, now, token) && AttemptThere(job, token) && position >= job.claims[token].next
    ensures RecordCall(job, now, token, position).Some?
    ensures var next := RecordCall(job, now, token, position).value;
            AttemptThere(next, token) && next.claims[token].next == position + 1
            && Providers(CallsOf(next, token)) == Providers(CallsOf(job, token)) + [position]
            && forall later: nat :: Holds(next, later, token) == Holds(job, later, token)
  {
    hide Providers;
    var calls := CallsOf(job, token);
    ProvidersGrow(calls, Call(position, |calls| + 1, true));
  }

  /** While its worker holds the lease, calls at ascending positions are all recorded. */
  lemma {:induction false} AscendingCallsRecorded(job: Job, token: nat, times: seq<nat>, calls: seq<nat>)
    requires |times| == |calls| && Ascending(calls) && AttemptThere(job, token)
    requires calls != [] ==> calls[0] >= job.claims[token].next
    requires forall k :: 0 <= k < |times| ==> Holds(job, times[k], token)
    ensures Recorded(job, token, times, calls).Some?
    ensures var done := Recorded(job, token, times, calls).value;
            AttemptThere(done, token) && Providers(CallsOf(done, token)) == Providers(CallsOf(job, token)) + calls
            && done.claims[token].next == (if calls == [] then job.claims[token].next else calls[|calls| - 1] + 1)
            && forall later: nat :: Holds(done, later, token) == Holds(job, later, token)
    decreases |calls|
  {
    hide Holds, AttemptThere, CallsOf, Providers, RecordCall;
    if calls != [] {
      var n := |calls| - 1;
      AscendingCallsRecorded(job, token, times[..n], calls[..n]);
      RecordedOnce(Recorded(job, token, times[..n], calls[..n]).value, times[n], token, calls[n]);
      assert calls == calls[..n] + [calls[n]];
    }
  }

  /** The calls of a round: for any answers of Redis and the providers, the router's calls go
      through the recorder one after the other while the worker holds its lease, and the attempt
      of a fresh claim ends with exactly those calls, in order. */
  lemma RoundIsRecorded<Draft>(
    providers: seq<ProviderRouting.Provider>, withImage: bool, replies: seq<ProviderRouting.Reply<Draft>>, n: nat,
    job: Job, token: nat, times: seq<nat>)
    requires |replies| == |providers| && n <= |providers|
    requires AttemptThere(job, token) && job.claims[token].next == 0 && CallsOf(job, token) == []
    requires |times| == |ProviderRouting.CallsMade(providers, withImage, replies, n)|
    requires forall k :: 0 <= k < |times| ==> Holds(job, times[k], token)
    ensures var done := Recorded(job, token, times, ProviderRouting.CallsMade(providers, withImage, replies, n));
            done.Some? && AttemptThere(done.value, token)
            && Providers(CallsOf(done.value, token)) == ProviderRouting.CallsMade(providers, withImage, replies, n)
  {
    hide Holds, AttemptThere, CallsOf;
    ProviderRouting.CallsAscend(providers, withImage, replies, n);
    AscendingCallsRecorded(job, token, times, ProviderRouting.CallsMade(providers, withImage, replies, n));
  }
}
