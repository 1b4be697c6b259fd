/** Every interleaving ends: a flow that has not finished can always move, and each move
    brings the end nearer. */
module CaptureProgress {
  import opened Wrappers
  import opened Totals
  import opened CaptureProtocol
  import opened CaptureInvariants
  import opened CaptureSimulation

  function Ranks(flows: map<nat, Flow>): map<nat, int> {
    map t | t in flows :: Rank(flows[t].pc)
  }

  /** At most how many moves are left. */
  ghost function MovesLeft(flows: map<nat, Flow>): int {
    Total(Ranks(flows), flows.Keys)
  }

  lemma StepLowersRank(s: Store, f: Flow, c: Choice)
    requires Fits(f) && !Terminal(f.pc) && Answers(s, f, c)
    ensures Rank(Next(s, f, c).1) < Rank(f.pc)
  {
  }

  lemma MoveLowersRank(s: State, m: Move)
    requires Inv(s) && Enabled(s, m)
    ensures MovesLeft(Apply(s, m).flows) < MovesLeft(s.flows)
  {
    var f, t := s.flows[m.tid], Apply(s, m);
    assert FlowInv(s.store, f);
    if !m.crash {
      StepLowersRank(s.store, f, m.choice);
    }
    assert t.flows.Keys == s.flows.Keys;
    assert Rank(t.flows[m.tid].pc) < Rank(f.pc);
    TotalOneChanged(Ranks(s.flows), Ranks(t.flows), s.flows.Keys, m.tid);
  }

  lemma NeverNegative(flows: map<nat, Flow>)
    ensures MovesLeft(flows) >= 0
  {
    TotalBounds(Ranks(flows), flows.Keys);
  }

  /** No schedule is longer than the moves its flows have left at the start. */
  lemma {:induction false} RunsAreBounded(s: State, ms: seq<Move>)
    requires Inv(s) && Run(s, ms)
    ensures |ms| + MovesLeft(After(s, ms).flows) <= MovesLeft(s.flows)
    ensures |ms| <= MovesLeft(s.flows)
    decreases |ms|
  {
    NeverNegative(After(s, ms).flows);
    if ms != [] {
      var before := ms[..|ms| - 1];
      RunsAreBounded(s, before);
      AllInterleavings(s, before);
      MoveLowersRank(After(s, before), ms[|ms| - 1]);
    }
  }

  lemma {:induction false} FreshId(ids: set<Id>) returns (i: Id)
    ensures i !in ids && forall j :: j in ids ==> j < i
    decreases ids
  {
    if ids == {} {
      i := 0;
    } else {
      var j :| j in ids;
      i := FreshId(ids - {j});
      i := if i > j then i else j + 1;
      assert forall k :: k in ids ==> k == j || k in ids - {j};
    }
  }

  /** The database can always answer. */
  lemma NeverStuck(s: Store, f: Flow) returns (c: Choice)
    requires Fits(f)
    ensures Answers(s, f, c)
  {
    var p := FreshId(s.payments.Keys);
    var i := FreshId(s.invoices.Keys);
    c := Choice(None, None, None, None, if f.req.Bill? then i else p);
    match (f.req, f.pc)
    case (Capture(d), Fresh) =>
      if q :| q in s.payments && HasOrder(s.payments[q], d.orderId) {
        c := c.(resolved := Some(q));
      }
    case (Capture(d), Resolved(_, row)) =>
      if q :| q in s.payments && HasPayId(s.payments[q], row.tenantId, d.payId) {
        c := c.(existing := Some(q));
      }
    case (Capture(d), Unseen(_, row)) =>
      if q :| q in s.payments && IsOpen(s.payments[q], row.tenantId, d.orderId) {
        c := c.(pending := Some(q));
      }
    case (Bill(u), Fresh) =>
      if b :| b in s.invoices && SameKey(s.invoices[b], NewInvoice(u)) {
        c := c.(billed := Some(b));
      }
    case _ =>
  }

  /** Whatever has happened so far, it can be continued, with no further crash, until every
      flow has ended. */
  lemma {:induction false} CanFinish(s: State, ms: seq<Move>) returns (ms': seq<Move>)
    requires Inv(s) && Run(s, ms)
    ensures ms <= ms' && Run(s, ms') && Finished(After(s, ms'))
    ensures forall k :: |ms| <= k < |ms'| ==> !ms'[k].crash
    decreases MovesLeft(After(s, ms).flows)
  {
    var now := After(s, ms);
    AllInterleavings(s, ms);
    if Finished(now) {
      ms' := ms;
    } else {
      var t :| t in now.flows && !Terminal(now.flows[t].pc);
      assert FlowInv(now.store, now.flows[t]);
      var c := NeverStuck(now.store, now.flows[t]);
      var m := Move(t, c, false);
      ms' := Take(s, ms, now, m);
      MoveLowersRank(now, m);
      NeverNegative(now.flows);
      NeverNegative(Apply(now, m).flows);
      ms' := CanFinish(s, ms');
    }
  }
}
