/** Claims in unrestricted interleavings. The save at the claim carries no test that the row
    is still CREATED, so the unique index guards a payment id against another row only,
    never against the same row. This says exactly when each payment is claimed once. */
module CaptureClaims {
  import opened Wrappers
  import opened CaptureProtocol
  import opened CaptureInvariants
  import opened CaptureSerial
  import opened CaptureReduction

  // ---- Exactly when a second claim goes through ----

  predicate ClaimPassed(pc: Pc) {
    pc.Claimed? || pc.Loaded? || pc.Stamped? || pc.Threw? || (pc.Done? && pc.applied)
    || (pc.Crashed? && ClaimPassed(pc.at))
  }

  /** A row carries the payment id; a flow that holds row `pid` claims with the same id.
      The claim goes through exactly when it is the same row. */
  lemma SecondClaim(s: Store, d: Delivery, taken: Id, pid: Id, row: Payment, c: Choice)
    requires StoreInv(s) && FlowInv(s, Flow(Capture(d), Holding(pid, row)))
    requires taken in s.payments && s.payments[taken].gatewayPaymentId == Some(d.payId)
    ensures ClaimPassed(NextCapture(s, d, Holding(pid, row), c).1) <==> pid == taken
  {
    assert pid == taken || !(s.payments[pid].gatewayPaymentId == Some(d.payId));
  }

  /** The move claims a row that is no longer CREATED. */
  ghost predicate IsStaleClaim(s: State, m: Move)
    requires Enabled(s, m)
  {
    && IsClaim(s, m)
    && s.flows[m.tid].pc.pid in s.store.payments
    && s.store.payments[s.flows[m.tid].pc.pid].status != Created
  }

  /** The move is a claim that goes through. */
  ghost predicate IsClaim(s: State, m: Move)
    requires Enabled(s, m)
  {
    var f := s.flows[m.tid];
    !m.crash && f.req.Capture? && f.pc.Holding? && !TakenElsewhere(s.store, f.pc.pid, f.req.d.payId)
  }

  // ---- Accounting over all interleavings ----

  ghost function ClaimedFlows(s: State): set<nat> {
    set t | t in s.flows && s.flows[t].req.Capture? && ClaimPassed(s.flows[t].pc)
  }

  ghost function CapturedRows(s: Store): set<Id> {
    set p | p in s.payments && s.payments[p].status == Captured
  }

  /** How many moves of a run claim a row that is no longer CREATED. */
  ghost function StaleClaims(s: State, ms: seq<Move>): nat
    requires Run(s, ms)
    decreases |ms|
  {
    if ms == [] then 0
    else
      var before := ms[..|ms| - 1];
      StaleClaims(s, before) + if IsStaleClaim(After(s, before), ms[|ms| - 1]) then 1 else 0
  }

  lemma ClaimCounts(s: Store, d: Delivery, pid: Id, row: Payment, c: Choice)
    requires pid in s.payments && row.status == Created && !TakenElsewhere(s, pid, d.payId)
    ensures var (t, pc') := NextCapture(s, d, Holding(pid, row), c);
            ClaimPassed(pc') && CapturedRows(t) == CapturedRows(s) + {pid}
  {
    var t := NextCapture(s, d, Holding(pid, row), c).0;
    assert t.payments[pid].status == Captured;
  }

  lemma StampCounts(s: Store, d: Delivery, pid: Id, row: Payment)
    ensures CapturedRows(SavePayment(s, pid, row, StampedDoc(row, d))) == CapturedRows(s)
  {
  }

  lemma QuietCounts(s: Store, d: Delivery, pc: Pc, c: Choice)
    requires Answers(s, Flow(Capture(d), pc), c) && !Terminal(pc)
    requires pc.Holding? ==> TakenElsewhere(s, pc.pid, d.payId)
    ensures var (t, pc') := NextCapture(s, d, pc, c);
            (ClaimPassed(pc') <==> ClaimPassed(pc)) && CapturedRows(t) == CapturedRows(s)
  {
    if pc.Loaded? {
      StampCounts(s, d, pc.pid, pc.row);
    }
  }

  /** One capture step, seen from its flow and from the rows. */
  lemma CaptureStepCounts(s: Store, d: Delivery, pc: Pc, c: Choice)
    requires FlowInv(s, Flow(Capture(d), pc)) && Answers(s, Flow(Capture(d), pc), c) && !Terminal(pc)
    ensures var (t, pc') := NextCapture(s, d, pc, c);
            if pc.Holding? && !TakenElsewhere(s, pc.pid, d.payId) then
              && ClaimPassed(pc') && !ClaimPassed(pc) && pc.pid in s.payments
              && CapturedRows(t) == CapturedRows(s) + {pc.pid}
            else
              && (ClaimPassed(pc') <==> ClaimPassed(pc))
              && CapturedRows(t) == CapturedRows(s)
  {
    if pc.Holding? && !TakenElsewhere(s, pc.pid, d.payId) {
      ClaimCounts(s, d, pc.pid, pc.row, c);
    } else {
      QuietCounts(s, d, pc, c);
    }
  }

  lemma OtherStepCounts(s: Store, f: Flow, c: Choice)
    requires StoreInv(s) && Answers(s, f, c) && !f.req.Capture?
    ensures CapturedRows(Next(s, f, c).0) == CapturedRows(s)
  {
  }

  lemma FlowsCount(s: State, t: nat, g: Flow, store': Store)
    requires t in s.flows && g.req == s.flows[t].req
    ensures var s' := State(store', s.flows[t := g]);
            ClaimedFlows(s') == if g.req.Capture? && ClaimPassed(g.pc) then ClaimedFlows(s) + {t}
                                else ClaimedFlows(s) - {t}
    ensures t in ClaimedFlows(s) <==> g.req.Capture? && ClaimPassed(s.flows[t].pc)
  {
  }

  lemma MoveSets(s: State, m: Move)
    requires Inv(s) && Enabled(s, m)
    ensures if IsClaim(s, m) then
              && s.flows[m.tid].pc.pid in s.store.payments
              && m.tid !in ClaimedFlows(s) && ClaimedFlows(Apply(s, m)) == ClaimedFlows(s) + {m.tid}
              && CapturedRows(Apply(s, m).store) == CapturedRows(s.store) + {s.flows[m.tid].pc.pid}
            else
              && ClaimedFlows(Apply(s, m)) == ClaimedFlows(s)
              && CapturedRows(Apply(s, m).store) == CapturedRows(s.store)
  {
    var f, s' := s.flows[m.tid], Apply(s, m);
    assert FlowInv(s.store, f);
    FlowsCount(s, m.tid, s'.flows[m.tid], s'.store);
    if !m.crash {
      if f.req.Capture? {
        CaptureStepCounts(s.store, f.req.d, f.pc, m.choice);
      } else {
        OtherStepCounts(s.store, f, m.choice);
      }
    }
  }

  lemma SizesAfter(flows: set<nat>, rows: set<Id>, t: nat, p: Id)
    requires t !in flows
    ensures |flows + {t}| + |rows| == |flows| + |rows + {p}| + (if p in rows then 1 else 0)
  {
    if p in rows {
      assert rows + {p} == rows;
    }
  }

  lemma StaleIff(s: State, m: Move)
    requires Inv(s) && Enabled(s, m) && IsClaim(s, m) && s.flows[m.tid].pc.pid in s.store.payments
    ensures IsStaleClaim(s, m) <==> s.flows[m.tid].pc.pid in CapturedRows(s.store)
  {
    assert PaymentOk(s.store, s.store.payments[s.flows[m.tid].pc.pid]);
  }

  lemma MoveCounts(s: State, m: Move)
    requires Inv(s) && Enabled(s, m)
    ensures |ClaimedFlows(Apply(s, m))| + |CapturedRows(s.store)|
         == |ClaimedFlows(s)| + |CapturedRows(Apply(s, m).store)| + (if IsStaleClaim(s, m) then 1 else 0)
  {
    MoveSets(s, m);
    if IsClaim(s, m) {
      StaleIff(s, m);
      SizesAfter(ClaimedFlows(s), CapturedRows(s.store), m.tid, s.flows[m.tid].pc.pid);
    }
  }

  /** Whatever the interleaving and the crashes, the deliveries that passed their claim
      outnumber the rows they captured by exactly the claims on rows no longer CREATED. */
  lemma {:induction false} ClaimAccounting(s: State, ms: seq<Move>)
    requires Inv(s) && Run(s, ms)
    ensures |ClaimedFlows(After(s, ms))| - |ClaimedFlows(s)|
         == |CapturedRows(After(s, ms).store)| - |CapturedRows(s.store)| + StaleClaims(s, ms)
    decreases |ms|
  {
    if ms != [] {
      var before := ms[..|ms| - 1];
      ClaimAccounting(s, before);
      AllInterleavings(s, before);
      MoveCounts(After(s, before), ms[|ms| - 1]);
    }
  }

  // ---- Exactly when every payment id is claimed once ----

  /** No delivery's payment id is claimed twice, and none is lost. */
  ghost predicate ClaimedOnce(s: State) {
    && (forall t :: t in ClaimedFlows(s) ==> PayIdUsed(s.store, s.flows[t].req.d.payId))
    && (forall t, u :: t in ClaimedFlows(s) && u in ClaimedFlows(s) && t != u ==>
                         s.flows[t].req.d.payId != s.flows[u].req.d.payId)
  }

  /** Only a claim writes a payment id, and only on its own row. */
  lemma PayIdsMove(s: State, m: Move, p: Id)
    requires Inv(s) && Enabled(s, m) && p in Apply(s, m).store.payments
    requires !(IsClaim(s, m) && p == s.flows[m.tid].pc.pid)
    ensures p in s.store.payments ==>
              && Apply(s, m).store.payments[p].gatewayPaymentId == s.store.payments[p].gatewayPaymentId
              && Apply(s, m).store.payments[p].status == s.store.payments[p].status
    ensures p !in s.store.payments ==> Apply(s, m).store.payments[p].gatewayPaymentId == None
  {
    assert FlowInv(s.store, s.flows[m.tid]);
  }

  lemma PayIdsKept(s: State, m: Move)
    requires Inv(s) && Enabled(s, m) && !IsStaleClaim(s, m)
    ensures forall x: string :: PayIdUsed(s.store, x) ==> PayIdUsed(Apply(s, m).store, x)
  {
    forall x: string | PayIdUsed(s.store, x)
      ensures PayIdUsed(Apply(s, m).store, x)
    {
      var p :| p in s.store.payments && s.store.payments[p].gatewayPaymentId == Some(x);
      assert PaymentOk(s.store, s.store.payments[p]);
      ApplyKeeps(s, m);
      PayIdsMove(s, m, p);
    }
  }

  lemma FreshClaim(s: State, m: Move)
    requires Inv(s) && Enabled(s, m) && IsClaim(s, m) && !IsStaleClaim(s, m)
    ensures !PayIdUsed(s.store, s.flows[m.tid].req.d.payId)
    ensures PayIdUsed(Apply(s, m).store, s.flows[m.tid].req.d.payId)
  {
    var f := s.flows[m.tid];
    assert FlowInv(s.store, f) && PaymentOk(s.store, s.store.payments[f.pc.pid]);
    assert Apply(s, m).store.payments[f.pc.pid].gatewayPaymentId == Some(f.req.d.payId);
  }

  lemma OnceStep(s: State, m: Move)
    requires Inv(s) && Enabled(s, m) && !IsStaleClaim(s, m) && ClaimedOnce(s)
    ensures ClaimedOnce(Apply(s, m))
  {
    var f, s' := s.flows[m.tid], Apply(s, m);
    assert FlowInv(s.store, f);
    PayIdsKept(s, m);
    FlowsCount(s, m.tid, s'.flows[m.tid], s'.store);
    if IsClaim(s, m) {
      FreshClaim(s, m);
    } else if !m.crash && f.req.Capture? {
      CaptureStepCounts(s.store, f.req.d, f.pc, m.choice);
    }
    forall t | t in ClaimedFlows(s')
      ensures t in ClaimedFlows(s) || (IsClaim(s, m) && t == m.tid)
      ensures s'.flows[t].req == s.flows[t].req
    {
    }
  }

  /** Under every interleaving, crashes included, in which each claim finds its row still
      CREATED (as a claim by compare-and-set would), every payment id is claimed at most
      once and stays recorded. The code itself makes no such test. */
  lemma {:induction false} CompareAndSetClaimsOnce(s: State, ms: seq<Move>)
    requires Inv(s) && Run(s, ms) && StaleClaims(s, ms) == 0 && ClaimedOnce(s)
    ensures ClaimedOnce(After(s, ms))
    decreases |ms|
  {
    if ms != [] {
      var before := ms[..|ms| - 1];
      CompareAndSetClaimsOnce(s, before);
      AllInterleavings(s, before);
      OnceStep(After(s, before), ms[|ms| - 1]);
    }
  }

  /** Some delivery that passed its claim carries the id that row p does. */
  ghost predicate HasClaimer(s: State, p: Id)
    requires p in s.store.payments
  {
    exists t :: t in ClaimedFlows(s) && Some(s.flows[t].req.d.payId) == s.store.payments[p].gatewayPaymentId
  }

  /** Every row captured since store s0 has a claimer among the flows, and no flow holds a
      row that was captured before. */
  ghost predicate Traced(s0: Store, s: State) {
    && (forall p :: p in CapturedRows(s.store) && p !in CapturedRows(s0) ==> HasClaimer(s, p))
    && (forall t :: t in s.flows && s.flows[t].pc.Holding? ==> s.flows[t].pc.pid !in CapturedRows(s0))
  }

  lemma ClaimWrites(s: State, m: Move)
    requires Inv(s) && Enabled(s, m) && IsClaim(s, m)
    ensures var f, t := s.flows[m.tid], Apply(s, m).store;
            f.pc.pid in t.payments && t.payments[f.pc.pid].gatewayPaymentId == Some(f.req.d.payId)
  {
    assert FlowInv(s.store, s.flows[m.tid]);
  }

  lemma ClaimersStay(s: State, m: Move, p: Id)
    requires Inv(s) && Enabled(s, m) && p in Apply(s, m).store.payments
    requires p in CapturedRows(Apply(s, m).store)
    requires p in CapturedRows(s.store) ==> HasClaimer(s, p)
    ensures HasClaimer(Apply(s, m), p)
  {
    if IsClaim(s, m) && p == s.flows[m.tid].pc.pid {
      MoveSets(s, m);
      ClaimWrites(s, m);
      assert m.tid in ClaimedFlows(Apply(s, m));
    } else {
      PayIdsMove(s, m, p);
      ClaimerKept(s, m, p);
    }
  }

  lemma ClaimerKept(s: State, m: Move, p: Id)
    requires Inv(s) && Enabled(s, m) && p in s.store.payments && HasClaimer(s, p) && p in Apply(s, m).store.payments
    requires Apply(s, m).store.payments[p].gatewayPaymentId == s.store.payments[p].gatewayPaymentId
    ensures HasClaimer(Apply(s, m), p)
  {
    MoveSets(s, m);
    var t :| t in ClaimedFlows(s) && Some(s.flows[t].req.d.payId) == s.store.payments[p].gatewayPaymentId;
    assert t in ClaimedFlows(Apply(s, m)) && Apply(s, m).flows[t].req == s.flows[t].req;
  }

  /** A flow comes to hold only a row that is CREATED at that moment. */
  lemma HeldWasOpen(s: State, m: Move, t: nat)
    requires Inv(s) && Enabled(s, m) && t in Apply(s, m).flows && Apply(s, m).flows[t].pc.Holding?
    ensures (t in s.flows && s.flows[t] == Apply(s, m).flows[t])
         || (Apply(s, m).flows[t].pc.pid in s.store.payments
             && s.store.payments[Apply(s, m).flows[t].pc.pid].status == Created)
  {
    assert FlowInv(s.store, s.flows[m.tid]);
  }

  lemma TracedStep(s0: Store, s: State, m: Move)
    requires Inv(s) && Enabled(s, m) && Evolves(s0, s.store) && Traced(s0, s)
    ensures Traced(s0, Apply(s, m))
  {
    var s' := Apply(s, m);
    forall p | p in CapturedRows(s'.store) && p !in CapturedRows(s0)
      ensures HasClaimer(s', p)
    {
      ClaimersStay(s, m, p);
    }
    forall t | t in s'.flows && s'.flows[t].pc.Holding?
      ensures s'.flows[t].pc.pid !in CapturedRows(s0)
    {
      HeldWasOpen(s, m, t);
    }
  }

  /** A stale claim repeats a payment id or erases one. */
  lemma StaleClaimBreaks(s0: Store, s: State, m: Move)
    requires Inv(s) && Enabled(s, m) && Traced(s0, s) && IsStaleClaim(s, m)
    ensures !ClaimedOnce(Apply(s, m))
  {
    var f, s' := s.flows[m.tid], Apply(s, m);
    assert PaymentOk(s.store, s.store.payments[f.pc.pid]);
    MoveSets(s, m);
    assert HasClaimer(s, f.pc.pid);
    var t :| t in ClaimedFlows(s) && Some(s.flows[t].req.d.payId) == s.store.payments[f.pc.pid].gatewayPaymentId;
    assert t != m.tid && t in ClaimedFlows(s') && m.tid in ClaimedFlows(s');
    assert s'.flows[t] == s.flows[t] && s'.flows[m.tid].req == f.req;
    if s.flows[t].req.d.payId != f.req.d.payId {
      ErasedId(s, m, s.flows[t].req.d.payId);
    }
  }

  lemma ErasedId(s: State, m: Move, x: string)
    requires Inv(s) && Enabled(s, m) && IsClaim(s, m) && s.flows[m.tid].pc.pid in s.store.payments
    requires s.store.payments[s.flows[m.tid].pc.pid].gatewayPaymentId == Some(x) && x != s.flows[m.tid].req.d.payId
    ensures !PayIdUsed(Apply(s, m).store, x)
  {
    var pid, t := s.flows[m.tid].pc.pid, Apply(s, m).store;
    ClaimWrites(s, m);
    forall p | p in t.payments
      ensures t.payments[p].gatewayPaymentId != Some(x)
    {
      if p != pid {
        PayIdsMove(s, m, p);
      }
    }
  }

  /** A payment id comes into use by a claim with it, and in no other way. */
  lemma UsedByClaim(s: State, m: Move, x: string)
    requires Inv(s) && Enabled(s, m) && PayIdUsed(Apply(s, m).store, x)
    ensures PayIdUsed(s.store, x) || (IsClaim(s, m) && s.flows[m.tid].req.d.payId == x)
  {
    var t := Apply(s, m).store;
    var p :| p in t.payments && t.payments[p].gatewayPaymentId == Some(x);
    if IsClaim(s, m) && p == s.flows[m.tid].pc.pid {
      ClaimWrites(s, m);
    } else {
      PayIdsMove(s, m, p);
    }
  }

  lemma ClaimersKept(s: State, m: Move, t: nat)
    requires Inv(s) && Enabled(s, m) && t in ClaimedFlows(s)
    ensures t in ClaimedFlows(Apply(s, m)) && Apply(s, m).flows[t].req == s.flows[t].req
  {
    MoveSets(s, m);
  }

  lemma LostStays(s: State, m: Move, t: nat)
    requires Inv(s) && Enabled(s, m) && t in ClaimedFlows(s) && !PayIdUsed(s.store, s.flows[t].req.d.payId)
    ensures !ClaimedOnce(Apply(s, m))
  {
    var s', x := Apply(s, m), s.flows[t].req.d.payId;
    ClaimersKept(s, m, t);
    if PayIdUsed(s'.store, x) {
      UsedByClaim(s, m, x);
      MoveSets(s, m);
      assert m.tid in ClaimedFlows(s') && m.tid != t && s'.flows[m.tid].req == s.flows[m.tid].req;
    }
  }

  /** What is once broken stays broken. */
  lemma BrokenStays(s: State, m: Move)
    requires Inv(s) && Enabled(s, m) && !ClaimedOnce(s)
    ensures !ClaimedOnce(Apply(s, m))
  {
    if t, u :| t in ClaimedFlows(s) && u in ClaimedFlows(s) && t != u
               && s.flows[t].req.d.payId == s.flows[u].req.d.payId {
      ClaimersKept(s, m, t);
      ClaimersKept(s, m, u);
    } else {
      var t :| t in ClaimedFlows(s) && !PayIdUsed(s.store, s.flows[t].req.d.payId);
      LostStays(s, m, t);
    }
  }

  lemma {:induction false} RunIsTraced(s0: State, ms: seq<Move>)
    requires Initial(s0) && Run(s0, ms)
    ensures Traced(s0.store, After(s0, ms))
    decreases |ms|
  {
    if ms != [] {
      var before := ms[..|ms| - 1];
      RunIsTraced(s0, before);
      AllInterleavings(s0, before);
      TracedStep(s0.store, After(s0, before), ms[|ms| - 1]);
    }
  }

  lemma NobodyClaimedYet(s: State)
    requires Initial(s)
    ensures ClaimedOnce(s)
  {
    assert ClaimedFlows(s) == {};
  }

  /** Over every interleaving of the code as it is, crashes included: no payment id is
      claimed twice and none is lost, if and only if every claim found its row CREATED. */
  lemma {:induction false} ClaimedOnceIff(s0: State, ms: seq<Move>)
    requires Initial(s0) && Run(s0, ms)
    ensures ClaimedOnce(After(s0, ms)) <==> StaleClaims(s0, ms) == 0
    decreases |ms|
  {
    if ms == [] {
      NobodyClaimedYet(s0);
    } else {
      var before, m := ms[..|ms| - 1], ms[|ms| - 1];
      var s := After(s0, before);
      ClaimedOnceIff(s0, before);
      AllInterleavings(s0, before);
      if !ClaimedOnce(s) {
        BrokenStays(s, m);
      } else if IsStaleClaim(s, m) {
        RunIsTraced(s0, before);
        StaleClaimBreaks(s0.store, s, m);
      } else {
        OnceStep(s, m);
      }
    }
  }

  // ---- Exclusive interleavings ----

  /** A flow whose snapshot is current claims a row that is still CREATED. */
  lemma CurrentClaimIsFresh(s: State, m: Move)
    requires Tight(s) && Enabled(s, m)
    ensures !IsStaleClaim(s, m)
  {
    assert IsCurrent(s.store, s.flows[m.tid]) && FlowInv(s.store, s.flows[m.tid]);
  }

  lemma {:induction false} ExclusiveNeverStale(s0: State, ms: seq<Move>)
    requires Initial(s0) && ExclusiveRun(s0, ms)
    ensures StaleClaims(s0, ms) == 0
    decreases |ms|
  {
    if ms != [] {
      var before := ms[..|ms| - 1];
      ExclusiveNeverStale(s0, before);
      ExclusiveIsTight(s0, before);
      CurrentClaimIsFresh(After(s0, before), ms[|ms| - 1]);
    }
  }

  /** While no two requests in flight concern one invoice, and whichever of them die at
      whatever point, no two deliveries of one payment id pass their claim, and a claimed id
      stays recorded. */
  lemma ExclusiveAppliesOnce(s0: State, ms: seq<Move>)
    requires Initial(s0) && ExclusiveRun(s0, ms)
    ensures ClaimedOnce(After(s0, ms))
  {
    ExclusiveNeverStale(s0, ms);
    ClaimedOnceIff(s0, ms);
  }

  // ---- A crash between the claim and the credit ----

  /** A delivery claims its row and its process dies. The row is CAPTURED and the invoice is
      as it was; the dead flow never credits it, and in every continuation, in which other
      flows may be anywhere, another delivery of the payment passes only if a stale claim
      is made. */
  lemma CrashStrandsPayment(s: State, m: Move, crash: Move, ms: seq<Move>, u: nat)
    requires Inv(s) && ClaimedOnce(s) && Enabled(s, m) && IsClaim(s, m) && !IsStaleClaim(s, m)
    requires crash.tid == m.tid && crash.crash && Enabled(Apply(s, m), crash)
    requires Run(Apply(Apply(s, m), crash), ms)
    requires var flows := After(Apply(Apply(s, m), crash), ms).flows;
             u in flows && u != m.tid && flows[u].req.Capture? && flows[u].req.d.payId == s.flows[m.tid].req.d.payId
    ensures var dead, pid := Apply(Apply(s, m), crash), s.flows[m.tid].pc.pid;
            && dead.store.invoices == s.store.invoices
            && pid in dead.store.payments && dead.store.payments[pid].status == Captured
            && dead.flows[m.tid].pc.Crashed?
            && m.tid in After(dead, ms).flows && After(dead, ms).flows[m.tid] == dead.flows[m.tid]
            && (ClaimPassed(After(dead, ms).flows[u].pc) ==> StaleClaims(dead, ms) > 0)
  {
    var claimed := Apply(s, m);
    var dead := Apply(claimed, crash);
    assert FlowInv(s.store, s.flows[m.tid]);
    ApplyKeeps(s, m);
    ApplyKeeps(claimed, crash);
    OnceStep(s, m);
    OnceStep(claimed, crash);
    DeadStayDead(dead, ms, m.tid);
    DiesClaimed(s, m, crash);
    if StaleClaims(dead, ms) == 0 {
      CompareAndSetClaimsOnce(dead, ms);
      var after := After(dead, ms);
      assert m.tid in ClaimedFlows(after);
      assert u in ClaimedFlows(after) <==> ClaimPassed(after.flows[u].pc);
    }
  }

  lemma DiesClaimed(s: State, m: Move, crash: Move)
    requires Inv(s) && Enabled(s, m) && IsClaim(s, m)
    requires crash.tid == m.tid && crash.crash && Enabled(Apply(s, m), crash)
    ensures var dead, f := Apply(Apply(s, m), crash), s.flows[m.tid];
            && dead.store.invoices == s.store.invoices
            && f.pc.pid in dead.store.payments && dead.store.payments[f.pc.pid].status == Captured
            && m.tid in dead.flows && dead.flows[m.tid].req == f.req
            && dead.flows[m.tid].pc.Crashed? && ClaimPassed(dead.flows[m.tid].pc)
  {
    assert FlowInv(s.store, s.flows[m.tid]);
  }

  lemma {:induction false} DeadStayDead(s: State, ms: seq<Move>, t: nat)
    requires Run(s, ms) && t in s.flows && Terminal(s.flows[t].pc)
    ensures t in After(s, ms).flows && After(s, ms).flows[t] == s.flows[t]
    decreases |ms|
  {
    if ms != [] {
      DeadStayDead(s, ms[..|ms| - 1], t);
    }
  }

  /** And every later delivery of it that runs alone is refused. */
  lemma StrandedIsRefused(s: State, m: Move, crash: Move, log: seq<Entry>, k: nat)
    requires Inv(s) && SerialInv(s.store) && Enabled(s, m) && IsClaim(s, m)
    requires crash.tid == m.tid && crash.crash && Enabled(Apply(s, m), crash)
    requires Serial(Apply(Apply(s, m), crash).store, log) && RequestsOk(log)
    requires k < |log| && IsCaptureOf(log[k], s.flows[m.tid].req.d.payId)
    ensures !Claims(log[k])
  {
    var f, t := s.flows[m.tid], Apply(Apply(s, m), crash).store;
    ApplyKeeps(s, m);
    DiesClaimed(s, m, crash);
    ClaimWrites(s, m);
    UsedIsRefusedLater(t, log, k, f.req.d.payId);
  }

  lemma UsedIsRefusedLater(t: Store, log: seq<Entry>, k: nat, payId: string)
    requires SerialInv(t) && Serial(t, log) && RequestsOk(log) && PayIdUsed(t, payId)
    requires k < |log| && IsCaptureOf(log[k], payId)
    ensures !Claims(log[k])
  {
    SerialGrows(t, log, 0, k);
    StepGrows(t, log, k);
    LastStep(t, log, k);
    assert log[..0] == [];
    UsedIsRefused(SerialAfter(t, log[..k]), log[k], payId);
  }
}
