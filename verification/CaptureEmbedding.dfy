/** The converse of the reduction: a serial run of requests, each run alone to completion, is
    an exclusive interleaving of their flows in which none dies. */
module CaptureEmbedding {
  import opened Wrappers
  import opened CaptureProtocol
  import opened CaptureReduction

  /** Every flow but t has not begun or has ended. */
  ghost predicate Idle(flows: map<nat, Flow>, t: nat) {
    forall u :: u in flows && u != t ==> flows[u].pc.Fresh? || Terminal(flows[u].pc)
  }

  lemma IdleConcern(f: Flow)
    requires f.pc.Fresh? || Terminal(f.pc)
    ensures Concern(f) == None
  {
  }

  /** A step of the only active flow is admitted. */
  lemma LoneMove(s: State, t: nat, c: Choice)
    requires t in s.flows && Idle(s.flows, t) && !Terminal(s.flows[t].pc)
    requires Fits(s.flows[t]) && AloneOk(s.store, s.flows[t], c)
    ensures Enabled(s, Move(t, c, false)) && Admitted(s, Move(t, c, false))
  {
    forall u | u in s.flows && (u != t || s.flows[t].pc.Fresh?)
      ensures Concern(s.flows[u]) == None
    {
      IdleConcern(s.flows[u]);
    }
  }

  /** What is left of the flow's run is what follows that step. */
  lemma LoneStep(s: State, t: nat, c: Choice)
    requires t in s.flows && Idle(s.flows, t) && !Terminal(s.flows[t].pc)
    requires Fits(s.flows[t]) && AloneOk(s.store, s.flows[t], c) && Enabled(s, Move(t, c, false))
    ensures var (f, s1) := (s.flows[t], Apply(s, Move(t, c, false)));
            && t in s1.flows && Idle(s1.flows, t) && Fits(s1.flows[t]) && AloneOk(s1.store, s1.flows[t], c)
            && Rank(s1.flows[t].pc) < Rank(f.pc) && s1.flows[t].req == f.req
            && Alone(s1.store, s1.flows[t], c) == Alone(s.store, f, c)
            && s1.flows == s.flows[t := s1.flows[t]]
  {
    AloneStep(s.store, s.flows[t], c);
  }

  lemma SetTwice(a: map<nat, Flow>, b: map<nat, Flow>, t: nat, g: Flow)
    requires t in a && t in b && b == a[t := b[t]]
    ensures b[t := g] == a[t := g]
  {
  }

  lemma TakeExclusive(s0: State, ms: seq<Move>, s: State, m: Move) returns (ms': seq<Move>)
    requires ExclusiveRun(s0, ms) && After(s0, ms) == s && Enabled(s, m) && Admitted(s, m)
    ensures ms' == ms + [m] && ExclusiveRun(s0, ms') && After(s0, ms') == Apply(s, m)
  {
    ms' := Take(s0, ms, s, m);
    assert ms'[..|ms'| - 1] == ms;
  }

  /** The only active flow runs to completion as it does alone. */
  lemma {:induction false} RunAlone(s0: State, ms: seq<Move>, s: State, t: nat, c: Choice) returns (ms': seq<Move>)
    requires ExclusiveRun(s0, ms) && After(s0, ms) == s && t in s.flows && Idle(s.flows, t)
    requires Fits(s.flows[t]) && AloneOk(s.store, s.flows[t], c)
    ensures ExclusiveRun(s0, ms') && ms <= ms' && forall k :: |ms| <= k < |ms'| ==> !ms'[k].crash
    ensures var (store, pc) := Alone(s.store, s.flows[t], c);
            After(s0, ms') == State(store, s.flows[t := Flow(s.flows[t].req, pc)])
    decreases Rank(s.flows[t].pc)
  {
    var f := s.flows[t];
    if Terminal(f.pc) {
      ms' := ms;
      assert s.flows[t := Flow(f.req, f.pc)] == s.flows;
    } else {
      LoneMove(s, t, c);
      LoneStep(s, t, c);
      var s1 := Apply(s, Move(t, c, false));
      ms' := TakeExclusive(s0, ms, s, Move(t, c, false));
      ms' := RunAlone(s0, ms', s1, t, c);
      SetTwice(s.flows, s1.flows, t, Flow(f.req, Alone(s.store, f, c).1));
    }
  }

  /** Each entry of the log is the request of a flow of its own. */
  ghost predicate IsLogOf(log: seq<Entry>, flows: map<nat, Flow>) {
    && (forall j, k :: 0 <= j < k < |log| ==> log[j].tid != log[k].tid)
    && (forall k :: 0 <= k < |log| ==> log[k].tid in flows && log[k].req == flows[log[k].tid].req)
  }

  /** The flows once those of the log have ended as it says. */
  function Ended(flows: map<nat, Flow>, log: seq<Entry>): map<nat, Flow> {
    if log == [] then flows
    else
      var e := log[|log| - 1];
      Ended(flows, log[..|log| - 1])[e.tid := Flow(e.req, e.outcome)]
  }

  lemma {:induction false} EndedAt(flows: map<nat, Flow>, log: seq<Entry>, u: nat)
    requires IsLogOf(log, flows) && u in flows
    ensures u in Ended(flows, log)
    ensures forall k :: 0 <= k < |log| && log[k].tid == u ==> Ended(flows, log)[u] == Flow(log[k].req, log[k].outcome)
    ensures (forall k :: 0 <= k < |log| ==> log[k].tid != u) ==> Ended(flows, log)[u] == flows[u]
  {
    if log != [] {
      EndedAt(flows, log[..|log| - 1], u);
    }
  }

  lemma OutcomeIsTerminal(s: Store, log: seq<Entry>, k: nat)
    requires Serial(s, log) && k < |log|
    ensures Terminal(log[k].outcome)
    decreases |log|
  {
    if k < |log| - 1 {
      OutcomeIsTerminal(s, log[..|log| - 1], k);
    }
  }

  lemma EndedIsIdle(s0: State, log: seq<Entry>, t: nat)
    requires Initial(s0) && Serial(s0.store, log) && IsLogOf(log, s0.flows)
    ensures Ended(s0.flows, log).Keys == s0.flows.Keys && Idle(Ended(s0.flows, log), t)
  {
    EndedKeys(s0.flows, log);
    forall u | u in Ended(s0.flows, log)
      ensures Ended(s0.flows, log)[u].pc.Fresh? || Terminal(Ended(s0.flows, log)[u].pc)
    {
      EndedAt(s0.flows, log, u);
      if k :| 0 <= k < |log| && log[k].tid == u {
        OutcomeIsTerminal(s0.store, log, k);
      }
    }
  }

  lemma {:induction false} EndedKeys(flows: map<nat, Flow>, log: seq<Entry>)
    requires IsLogOf(log, flows)
    ensures Ended(flows, log).Keys == flows.Keys
  {
    if log != [] {
      EndedKeys(flows, log[..|log| - 1]);
    }
  }

  /** Every serial run is an exclusive interleaving without crashes: it ends in the same store,
      each flow of the log ends as its entry says, and the others have not begun. */
  lemma {:induction false} SerialIsARun(s0: State, log: seq<Entry>) returns (ms: seq<Move>)
    requires Initial(s0) && Serial(s0.store, log) && IsLogOf(log, s0.flows)
    ensures ExclusiveRun(s0, ms) && forall k :: 0 <= k < |ms| ==> !ms[k].crash
    ensures After(s0, ms) == State(SerialAfter(s0.store, log), Ended(s0.flows, log))
    decreases |log|
  {
    if log == [] {
      ms := [];
    } else {
      var before, e := log[..|log| - 1], log[|log| - 1];
      ms := SerialIsARun(s0, before);
      EndedIsIdle(s0, before, e.tid);
      EndedAt(s0.flows, before, e.tid);
      var now := State(SerialAfter(s0.store, before), Ended(s0.flows, before));
      assert now.flows[e.tid] == Flow(e.req, Fresh);
      ms := RunAlone(s0, ms, now, e.tid, e.choice);
    }
  }
}
