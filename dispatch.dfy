/**
 * Peer dispatch and liveness: the backends the engine talks to, and what a
 * broadcast with liveness tracking does to their reachability flags.
 */
module Dispatch {
  import opened Wrappers
  import opened Chain

  /**
   * One validator's application backend. `validatorAddress` names the
   * validator as text, the hex rendering of its address; `isConnected` is
   * the only field that changes after start-up.
   */
  datatype CounterpartyClient = CounterpartyClient(networkAddress: string, validatorAddress: string, isConnected: bool)

  /** Why a call to a backend gave no result: it timed out, or it answered with an error. */
  datatype CallError = Unreachable(networkAddress: string) | Failed(reason: string)

  /** A backend after one broadcast: a reachable backend whose call fails is marked unreachable. */
  function AfterCall<R>(c: CounterpartyClient, f: CounterpartyClient -> Result<R, CallError>): (c': CounterpartyClient)
    ensures c'.networkAddress == c.networkAddress && c'.validatorAddress == c.validatorAddress
    ensures c'.isConnected <==> c.isConnected && f(c).Success?
  {
    if c.isConnected && f(c).Failure? then c.(isConnected := false) else c
  }

  /** All backends after one broadcast. */
  function MarkFailures<R>(cs: seq<CounterpartyClient>, f: CounterpartyClient -> Result<R, CallError>): (cs': seq<CounterpartyClient>)
    ensures |cs'| == |cs|
    ensures forall i :: 0 <= i < |cs| ==> cs'[i] == AfterCall(cs[i], f)
  {
    seq(|cs|, i requires 0 <= i < |cs| => AfterCall(cs[i], f))
  }

  /** The results of one broadcast, in backend order: one per reachable backend whose call succeeds. */
  function Successes<R>(cs: seq<CounterpartyClient>, f: CounterpartyClient -> Result<R, CallError>): seq<R>
  {
    if cs == [] then []
    else
      var last := cs[|cs| - 1];
      Successes(cs[..|cs| - 1], f) + (if last.isConnected && f(last).Success? then [f(last).value] else [])
  }

  /** The results of a broadcast to one more backend: that backend's result, if any, comes last. */
  lemma SuccessesStep<R>(cs: seq<CounterpartyClient>, i: nat, f: CounterpartyClient -> Result<R, CallError>)
    requires i < |cs|
    ensures Successes(cs[..i + 1], f) ==
      Successes(cs[..i], f) + (if cs[i].isConnected && f(cs[i]).Success? then [f(cs[i]).value] else [])
  {
    assert cs[..i + 1][..i] == cs[..i];
  }

  /** The number of reachable backends. */
  function ConnectedCount(cs: seq<CounterpartyClient>): nat
  {
    if cs == [] then 0 else ConnectedCount(cs[..|cs| - 1]) + (if cs[|cs| - 1].isConnected then 1 else 0)
  }

  /**
   * Every result of a broadcast comes from a reachable backend whose call
   * succeeded, and every such backend contributes exactly one result, so
   * after the broadcast the reachable backends are exactly as many as the
   * results.
   */
  lemma {:induction false} ResultsMatchSurvivors<R>(cs: seq<CounterpartyClient>, f: CounterpartyClient -> Result<R, CallError>)
    ensures ConnectedCount(MarkFailures(cs, f)) == |Successes(cs, f)|
    ensures |Successes(cs, f)| <= ConnectedCount(cs)
  {
    if cs != [] {
      var n := |cs| - 1;
      assert MarkFailures(cs, f)[..n] == MarkFailures(cs[..n], f);
      ResultsMatchSurvivors(cs[..n], f);
    }
  }

  /** The backends after a sequence of broadcasts. */
  function AfterBroadcasts<R>(cs: seq<CounterpartyClient>, fs: seq<CounterpartyClient -> Result<R, CallError>>): (cs': seq<CounterpartyClient>)
    ensures |cs'| == |cs|
    decreases |fs|
  {
    if fs == [] then cs else AfterBroadcasts(MarkFailures(cs, fs[0]), fs[1..])
  }

  /**
   * There is no reconnection: a backend that is unreachable stays
   * unreachable through any number of later broadcasts, so none of them
   * calls it again.
   */
  lemma {:induction false} UnreachableStaysUnreachable<R>(
    cs: seq<CounterpartyClient>, fs: seq<CounterpartyClient -> Result<R, CallError>>, i: nat)
    requires i < |cs| && !cs[i].isConnected
    ensures !AfterBroadcasts(cs, fs)[i].isConnected
    ensures AfterBroadcasts(cs, fs)[i] == cs[i]
    decreases |fs|
  {
    if fs != [] {
      UnreachableStaysUnreachable(MarkFailures(cs, fs[0]), fs[1..], i);
    }
  }
}
