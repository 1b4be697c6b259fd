/** Which captured payments reach the ledger: the credits of any interleaving are those of the
    deliveries that answered applied=true, and a delivery that passed its claim is credited
    exactly when it neither died before its credit nor carried a negative amount. */
module CaptureStranded {
  import opened Wrappers
  import opened FeeCalc
  import opened Totals
  import opened CaptureProtocol
  import opened CaptureInvariants
  import opened CaptureLedger
  import opened CaptureReduction
  import opened CaptureSimulation
  import opened CaptureClaims
  import opened CaptureCredits

  // ---- The credits are those of the applied deliveries ----

  predicate AppliedTo(f: Flow, i: Id) {
    f.req.Capture? && f.pc == Done(true, Some(i))
  }

  /** The flows whose credit to invoice i the run wrote. */
  ghost function Crediters(s: State, ms: seq<Move>, i: Id): set<nat>
    requires Run(s, ms)
    decreases |ms|
  {
    if ms == [] then {}
    else
      var before, m := ms[..|ms| - 1], ms[|ms| - 1];
      Crediters(s, before, i) + if CreditsInvoice(After(s, before), m, i) then {m.tid} else {}
  }

  /** A claimed flow finds its invoice. */
  lemma ClaimedFinds(s: Store, f: Flow)
    requires StoreInv(s) && FlowInv(s, f) && f.pc.Claimed?
    ensures f.pc.row.invoiceId in s.invoices && s.invoices[f.pc.row.invoiceId].tenantId == f.pc.row.tenantId
  {
    assert PaymentOk(s, s.payments[f.pc.pid]);
  }

  /** A flow answers applied=true for invoice i by the move that writes its credit to i. */
  lemma AppliesByCredit(s: State, m: Move, i: Id)
    requires Inv(s) && Enabled(s, m)
    ensures AppliedTo(Apply(s, m).flows[m.tid], i) <==> CreditsInvoice(s, m, i)
  {
    var f := s.flows[m.tid];
    assert FlowInv(s.store, f);
    if f.pc.Claimed? {
      ClaimedFinds(s.store, f);
    }
  }

  lemma {:induction false} CreditersAreApplied(s0: State, ms: seq<Move>, i: Id, t: nat)
    requires Initial(s0) && Run(s0, ms)
    ensures t in Crediters(s0, ms, i) <==> t in After(s0, ms).flows && AppliedTo(After(s0, ms).flows[t], i)
    decreases |ms|
  {
    if ms != [] {
      var before := ms[..|ms| - 1];
      CreditersAreApplied(s0, before, i, t);
      AllInterleavings(s0, before);
      AppliesByCredit(After(s0, before), ms[|ms| - 1], i);
    }
  }

  /** The deliveries of amount x that answered applied=true for invoice i. */
  ghost function AppliedWith(flows: map<nat, Flow>, i: Id, x: int): set<nat> {
    set t | t in flows && AppliedTo(flows[t], i) && flows[t].req.d.amount == x
  }

  lemma AppliedWithStep(flows: map<nat, Flow>, t: nat, g: Flow, i: Id, x: int)
    requires t in flows && !AppliedTo(flows[t], i)
    ensures t !in AppliedWith(flows, i, x)
    ensures AppliedWith(flows[t := g], i, x)
         == AppliedWith(flows, i, x) + if AppliedTo(g, i) && g.req.d.amount == x then {t} else {}
  {
  }

  /** Over every interleaving, crashes included: an amount is credited to invoice i as many
      times as there are deliveries of that amount that answered applied=true for it. */
  lemma {:induction false} CreditsAreApplied(s0: State, ms: seq<Move>, i: Id, x: int)
    requires Initial(s0) && Run(s0, ms)
    ensures multiset(RunCredits(s0, ms, i))[x] == |AppliedWith(After(s0, ms).flows, i, x)|
    decreases |ms|
  {
    if ms == [] {
      assert AppliedWith(s0.flows, i, x) == {};
    } else {
      var before, m := ms[..|ms| - 1], ms[|ms| - 1];
      CreditsAreApplied(s0, before, i, x);
      AllInterleavings(s0, before);
      CountStep(After(s0, before), m, i, x, RunCredits(s0, before, i));
    }
  }

  lemma CountStep(now: State, m: Move, i: Id, x: int, credits: seq<int>)
    requires Inv(now) && Enabled(now, m)
    requires multiset(credits)[x] == |AppliedWith(now.flows, i, x)|
    ensures multiset(credits + if CreditsInvoice(now, m, i) then [now.flows[m.tid].req.d.amount] else [])[x]
         == |AppliedWith(Apply(now, m).flows, i, x)|
  {
    var g := Apply(now, m).flows[m.tid];
    AppliesByCredit(now, m, i);
    AppliedWithStep(now.flows, m.tid, g, i, x);
    assert Apply(now, m).flows == now.flows[m.tid := g];
  }

  // ---- The ledger of the deliveries ----

  function AmountOf(flows: map<nat, Flow>): map<nat, int> {
    map t | t in flows :: if flows[t].req.Capture? then flows[t].req.d.amount else 0
  }

  /** The deliveries that answered applied=true for invoice i. */
  ghost function AppliedFlows(flows: map<nat, Flow>, i: Id): set<nat> {
    set t | t in flows && AppliedTo(flows[t], i)
  }

  lemma AppliedFlowsStep(flows: map<nat, Flow>, t: nat, g: Flow, i: Id)
    requires t in flows && !AppliedTo(flows[t], i) && g.req == flows[t].req
    ensures t !in AppliedFlows(flows, i) && AmountOf(flows[t := g]) == AmountOf(flows)
    ensures AppliedFlows(flows[t := g], i) == AppliedFlows(flows, i) + if AppliedTo(g, i) then {t} else {}
  {
  }

  /** The credits of a run add up to the amounts of the deliveries applied. */
  lemma {:induction false} CreditsAddUp(s0: State, ms: seq<Move>, i: Id)
    requires Initial(s0) && Run(s0, ms)
    ensures Sum(RunCredits(s0, ms, i)) == Total(AmountOf(After(s0, ms).flows), AppliedFlows(After(s0, ms).flows, i))
    decreases |ms|
  {
    if ms == [] {
      assert AppliedFlows(s0.flows, i) == {};
    } else {
      var before, m := ms[..|ms| - 1], ms[|ms| - 1];
      var now, g := After(s0, before), After(s0, ms).flows[ms[|ms| - 1].tid];
      CreditsAddUp(s0, before, i);
      AllInterleavings(s0, before);
      AppliesByCredit(now, m, i);
      assert After(s0, ms).flows == now.flows[m.tid := g];
      AppliedTotalStep(now.flows, m.tid, g, i);
      if CreditsInvoice(now, m, i) {
        SumSnoc(RunCredits(s0, before, i), g.req.d.amount);
      } else {
        NoCredit(s0, ms, i);
      }
    }
  }

  lemma AppliedTotalStep(flows: map<nat, Flow>, t: nat, g: Flow, i: Id)
    requires t in flows && !AppliedTo(flows[t], i) && g.req == flows[t].req
    ensures Total(AmountOf(flows[t := g]), AppliedFlows(flows[t := g], i))
         == Total(AmountOf(flows), AppliedFlows(flows, i)) + if AppliedTo(g, i) then g.req.d.amount else 0
  {
    AppliedFlowsStep(flows, t, g, i);
    if AppliedTo(g, i) {
      TotalAdd(AmountOf(flows), AppliedFlows(flows, i), t);
    } else {
      assert AppliedFlows(flows, i) + {} == AppliedFlows(flows, i);
    }
  }

  /** Over every interleaving in which no snapshot misleads, an invoice's amountPaid is
      min(amountDue, what it was + the amounts of the deliveries that answered applied=true for it). */
  lemma LedgerOfDeliveries(s0: State, ms: seq<Move>, i: Id, s: State)
    requires Initial(s0) && Run(s0, ms) && s == After(s0, ms) && CreditsExact(s0, ms, i) && i in s.store.invoices
    ensures s.store.invoices[i].amountPaid
         == Min(s.store.invoices[i].amountDue, PaidIn(s0.store, i) + Total(AmountOf(s.flows), AppliedFlows(s.flows, i)))
  {
    LedgerAtEnd(s0, ms, i);
    CreditsAddUp(s0, ms, i);
  }

  lemma LedgerAtEnd(s0: State, ms: seq<Move>, i: Id)
    requires Initial(s0) && Run(s0, ms) && CreditsExact(s0, ms, i)
    ensures StandsAt(After(s0, ms).store, i, PaidIn(s0.store, i), RunCredits(s0, ms, i))
  {
    LedgerAlwaysIff(s0, ms, i);
    assert LedgerHolds(s0, ms, i);
  }

  // ---- Who is credited ----

  /** What the end of a capture says about its amount and its death. */
  predicate EndsWell(f: Flow) {
    f.req.Capture? ==>
      && (f.pc.Done? && f.pc.applied ==> f.pc.about.Some? && f.req.d.amount >= 0)
      && (f.pc.Threw? ==> f.req.d.amount < 0)
      && (f.pc.Crashed? ==> !Terminal(f.pc.at))
  }

  lemma EndsWellStep(s: State, m: Move)
    requires Inv(s) && Enabled(s, m)
    ensures EndsWell(Apply(s, m).flows[m.tid])
  {
    var f := s.flows[m.tid];
    assert FlowInv(s.store, f);
    if f.pc.Claimed? {
      ClaimedFinds(s.store, f);
    }
  }

  lemma {:induction false} AllEndWell(s0: State, ms: seq<Move>, t: nat)
    requires Initial(s0) && Run(s0, ms) && t in After(s0, ms).flows
    ensures EndsWell(After(s0, ms).flows[t])
    decreases |ms|
  {
    if ms != [] {
      var before, m := ms[..|ms| - 1], ms[|ms| - 1];
      AllInterleavings(s0, before);
      EndsWellStep(After(s0, before), m);
      if t != m.tid {
        AllEndWell(s0, before, t);
      }
    }
  }

  ghost predicate IsCredited(s0: State, ms: seq<Move>, t: nat)
    requires Run(s0, ms)
  {
    exists i :: t in Crediters(s0, ms, i)
  }

  /** The delivery passed its claim and will never be credited. */
  predicate Stranded(f: Flow) {
    f.req.Capture? && (DiedOwing(f.pc) || f.pc.Threw?)
  }

  /** In every interleaving a delivery that passed its claim and has ended was credited if and
      only if its amount is not negative and it did not die before its credit. */
  lemma CreditedIff(s0: State, ms: seq<Move>, t: nat)
    requires Initial(s0) && Run(s0, ms) && t in ClaimedFlows(After(s0, ms))
    requires Terminal(After(s0, ms).flows[t].pc)
    ensures var f := After(s0, ms).flows[t];
            && (IsCredited(s0, ms, t) <==> f.req.d.amount >= 0 && !DiedOwing(f.pc))
            && (IsCredited(s0, ms, t) <==> !Stranded(f))
  {
    var f := After(s0, ms).flows[t];
    AllEndWell(s0, ms, t);
    if f.pc.Done? {
      CreditersAreApplied(s0, ms, f.pc.about.value, t);
    } else {
      forall i
        ensures t !in Crediters(s0, ms, i)
      {
        CreditersAreApplied(s0, ms, i, t);
      }
      ClaimedHow(f);
    }
  }

  lemma ClaimedHow(f: Flow)
    requires f.req.Capture? && EndsWell(f) && Terminal(f.pc) && ClaimPassed(f.pc) && !f.pc.Done?
    ensures (f.pc.Threw? && !DiedOwing(f.pc) && f.req.d.amount < 0) || DiedOwing(f.pc)
  {
  }

  // ---- Every captured payment, once ----

  ghost function CreditedFlows(s0: State, ms: seq<Move>): set<nat>
    requires Run(s0, ms)
  {
    set t | t in ClaimedFlows(After(s0, ms)) && IsCredited(s0, ms, t)
  }

  ghost function StrandedFlows(s: State): set<nat> {
    set t | t in s.flows && Stranded(s.flows[t]) && ClaimPassed(s.flows[t].pc)
  }

  /** The deliveries that passed their claim are those credited and those stranded. */
  lemma ClaimedAreCreditedOrStranded(s0: State, ms: seq<Move>)
    requires Initial(s0) && Run(s0, ms) && Finished(After(s0, ms))
    ensures ClaimedFlows(After(s0, ms)) == CreditedFlows(s0, ms) + StrandedFlows(After(s0, ms))
    ensures CreditedFlows(s0, ms) !! StrandedFlows(After(s0, ms))
  {
    var s := After(s0, ms);
    forall t
      ensures t in ClaimedFlows(s) <==> t in CreditedFlows(s0, ms) || t in StrandedFlows(s)
      ensures t !in CreditedFlows(s0, ms) || t !in StrandedFlows(s)
    {
      if t in ClaimedFlows(s) {
        CreditedIff(s0, ms, t);
      }
    }
  }

  lemma SizeOfParts(all: set<nat>, left: set<nat>, right: set<nat>)
    requires all == left + right && left !! right
    ensures |all| == |left| + |right|
  {
  }

  /** When every flow has ended: the rows captured plus the stale claims are the deliveries
      credited plus those stranded. */
  lemma CapturedIsCreditedOrStranded(s0: State, ms: seq<Move>)
    requires Initial(s0) && Run(s0, ms) && Finished(After(s0, ms))
    ensures |CapturedRows(After(s0, ms).store)| - |CapturedRows(s0.store)| + StaleClaims(s0, ms)
         == |CreditedFlows(s0, ms)| + |StrandedFlows(After(s0, ms))|
  {
    ClaimAccounting(s0, ms);
    assert ClaimedFlows(s0) == {};
    ClaimedAreCreditedOrStranded(s0, ms);
    SizeOfParts(ClaimedFlows(After(s0, ms)), CreditedFlows(s0, ms), StrandedFlows(After(s0, ms)));
  }

  /** When every flow has ended: each payment was claimed once and every claim was credited,
      if and only if every claim found its row CREATED, no delivery died between its claim
      and its credit, and none that claimed carried a negative amount. */
  lemma EveryPaymentCreditedOnceIff(s0: State, ms: seq<Move>)
    requires Initial(s0) && Run(s0, ms) && Finished(After(s0, ms))
    ensures ClaimedOnce(After(s0, ms)) && (forall t :: t in ClaimedFlows(After(s0, ms)) ==> IsCredited(s0, ms, t))
            <==>
            StaleClaims(s0, ms) == 0
            && (forall t :: t in ClaimedFlows(After(s0, ms)) ==>
                  After(s0, ms).flows[t].req.d.amount >= 0 && !DiedOwing(After(s0, ms).flows[t].pc))
  {
    ClaimedOnceIff(s0, ms);
    forall t | t in ClaimedFlows(After(s0, ms))
      ensures IsCredited(s0, ms, t) <==>
                After(s0, ms).flows[t].req.d.amount >= 0 && !DiedOwing(After(s0, ms).flows[t].pc)
    {
      CreditedIff(s0, ms, t);
    }
  }
}
