/** The proof of the reduction: alongside an exclusive run, build the serial log and keep
    its store equal to the run's once the claimed flows have written their credits. */
module CaptureSimulation {
  import opened Wrappers
  import opened FeeCalc
  import opened CaptureProtocol
  import opened CaptureInvariants
  import opened CaptureSerial
  import opened CaptureReduction

  // ---- What a claimed flow will have written ----

  function FinalRow(row: Payment, d: Delivery, pc: Pc): Payment {
    if !pc.Stamped? && d.amount >= 0 && d.receipt.Some? then StampedDoc(row, d) else row
  }

  function FinalInvoice(inv: Invoice, d: Delivery): Invoice {
    if d.amount < 0 then inv else CreditedDoc(inv, d)
  }

  ghost predicate RowOwed(s: State, p: Id) {
    exists u :: u in s.flows && Owing(s.flows[u].pc) && s.flows[u].pc.pid == p
  }

  ghost predicate InvoiceOwed(s: State, i: Id) {
    exists u :: u in s.flows && Owing(s.flows[u].pc) && s.flows[u].pc.row.invoiceId == i
  }

  /** The serial store already holds what the pending flow f is about to write. */
  predicate Ahead(s: Store, f: Flow, abs: Store) {
    && f.req.Capture? && Owing(f.pc)
    && f.pc.pid in abs.payments
    && abs.payments[f.pc.pid] == FinalRow(f.pc.row, f.req.d, f.pc)
    && f.pc.row.invoiceId in s.invoices && f.pc.row.invoiceId in abs.invoices
    && abs.invoices[f.pc.row.invoiceId] == FinalInvoice(s.invoices[f.pc.row.invoiceId], f.req.d)
  }

  ghost predicate Rel(s: State, abs: Store) {
    && abs.payments.Keys == s.store.payments.Keys
    && abs.invoices.Keys == s.store.invoices.Keys
    && (forall p :: p in s.store.payments && !RowOwed(s, p) ==> abs.payments[p] == s.store.payments[p])
    && (forall i :: i in s.store.invoices && !InvoiceOwed(s, i) ==> abs.invoices[i] == s.store.invoices[i])
    && (forall u :: u in s.flows && Owing(s.flows[u].pc) ==> Ahead(s.store, s.flows[u], abs))
  }

  /** Two rows that differ at most in their receipt. */
  predicate AlikePayment(a: Payment, b: Payment) {
    SamePayment(a, b) && a.status == b.status && a.gatewayPaymentId == b.gatewayPaymentId
  }

  /** The two stores answer every query of the protocol alike. */
  ghost predicate Alike(s: Store, abs: Store) {
    && abs.payments.Keys == s.payments.Keys
    && abs.invoices.Keys == s.invoices.Keys
    && (forall p :: p in s.payments ==> AlikePayment(s.payments[p], abs.payments[p]))
    && (forall i :: i in s.invoices ==> SameInvoice(s.invoices[i], abs.invoices[i]))
  }

  lemma AheadAlike(s: Store, f: Flow, abs: Store)
    requires FlowInv(s, f) && IsCurrent(s, f) && Ahead(s, f, abs)
    ensures f.pc.pid in s.payments && AlikePayment(s.payments[f.pc.pid], abs.payments[f.pc.pid])
    ensures f.pc.row.invoiceId in s.invoices
    ensures SameInvoice(s.invoices[f.pc.row.invoiceId], abs.invoices[f.pc.row.invoiceId])
  {
  }

  lemma RowAlike(s: State, abs: Store, p: Id)
    requires Tight(s) && Rel(s, abs) && p in s.store.payments
    ensures p in abs.payments && AlikePayment(s.store.payments[p], abs.payments[p])
  {
    if RowOwed(s, p) {
      var u :| u in s.flows && Owing(s.flows[u].pc) && s.flows[u].pc.pid == p;
      AheadAlike(s.store, s.flows[u], abs);
    }
  }

  lemma BillAlike(s: State, abs: Store, i: Id)
    requires Tight(s) && Rel(s, abs) && i in s.store.invoices
    ensures i in abs.invoices && SameInvoice(s.store.invoices[i], abs.invoices[i])
  {
    if InvoiceOwed(s, i) {
      var u :| u in s.flows && Owing(s.flows[u].pc) && s.flows[u].pc.row.invoiceId == i;
      AheadAlike(s.store, s.flows[u], abs);
    }
  }

  lemma RelAlike(s: State, abs: Store)
    requires Tight(s) && Rel(s, abs)
    ensures Alike(s.store, abs)
  {
    forall p | p in s.store.payments
      ensures AlikePayment(s.store.payments[p], abs.payments[p])
    {
      RowAlike(s, abs, p);
    }
    forall i | i in s.store.invoices
      ensures SameInvoice(s.store.invoices[i], abs.invoices[i])
    {
      BillAlike(s, abs, i);
    }
  }

  /** A flow between its claim and its credit is not on the invoice of another flow that has
      not got so far. */
  lemma OwesElsewhere(s: State, t: nat, u: nat)
    requires Tight(s) && t in s.flows && u in s.flows
    requires Concern(s.flows[t]).Some? && !Owing(s.flows[t].pc) && Owing(s.flows[u].pc)
    ensures Some(s.flows[u].pc.row.invoiceId) != Concern(s.flows[t])
  {
    assert IsCurrent(s.store, s.flows[u]) && FlowInv(s.store, s.flows[u]);
    assert u != t && Concern(s.flows[u]) == Some(s.flows[u].pc.row.invoiceId);
  }

  /** An invoice that a flow read and has not written is the same in both stores. */
  lemma Settled(s: State, abs: Store, t: nat, i: Id)
    requires Tight(s) && Rel(s, abs) && t in s.flows && i in s.store.invoices
    requires Concern(s.flows[t]) == Some(i) && !Owing(s.flows[t].pc)
    ensures i in abs.invoices && abs.invoices[i] == s.store.invoices[i]
  {
    if InvoiceOwed(s, i) {
      var u :| u in s.flows && Owing(s.flows[u].pc) && s.flows[u].pc.row.invoiceId == i;
      OwesElsewhere(s, t, u);
    }
  }

  // ---- The log ----

  /** The flow has claimed its row or ended; one that died has not. */
  predicate Committed(pc: Pc) {
    Owing(pc) || (Terminal(pc) && !pc.Crashed?)
  }

  /** The flow died with its row claimed and its credit unwritten. */
  predicate DiedOwing(pc: Pc) {
    pc.Crashed? && Owing(pc.at)
  }

  /** One move adds at most one entry to the log: its own flow's, at the end. */
  predicate Grown(log: seq<Entry>, log': seq<Entry>, t: nat) {
    log' == log || (|log'| == |log| + 1 && log'[..|log|] == log && log'[|log|].tid == t)
  }

  /** How the flow ends, or will end. */
  function Verdict(f: Flow): Pc {
    if Owing(f.pc) && f.req.Capture? then
      if f.req.d.amount < 0 then Threw else Done(true, Some(f.pc.row.invoiceId))
    else f.pc
  }

  /** The same result. A capture that was not applied may name another invoice, or none,
      in the part of its result the webhook drops. */
  predicate SameResult(a: Pc, b: Pc) {
    a == b || (a.Done? && b.Done? && !a.applied && !b.applied)
  }

  /** The log lists every committed flow once, with its request and its result. */
  ghost predicate Lists(log: seq<Entry>, flows: map<nat, Flow>) {
    && (forall j, k :: 0 <= j < k < |log| ==> log[j].tid != log[k].tid)
    && (forall k :: 0 <= k < |log| ==>
          && log[k].tid in flows
          && log[k].req == flows[log[k].tid].req
          && Committed(flows[log[k].tid].pc)
          && SameResult(log[k].outcome, Verdict(flows[log[k].tid])))
    && (forall u :: u in flows && Committed(flows[u].pc) ==> exists k :: 0 <= k < |log| && log[k].tid == u)
  }

  ghost predicate Simulates(s0: Store, s: State, log: seq<Entry>) {
    && Serial(s0, log)
    && StoreInv(SerialAfter(s0, log))
    && Rel(s, SerialAfter(s0, log))
    && Lists(log, s.flows)
  }

  // ---- One move and the relation ----

  /** Both stores change at most on the touched rows. */
  ghost predicate Touches(s: Store, abs: Store, s': Store, abs': Store, rows: set<Id>, invs: set<Id>) {
    && abs'.payments.Keys == s'.payments.Keys && abs'.invoices.Keys == s'.invoices.Keys
    && s.payments.Keys <= s'.payments.Keys && s.invoices.Keys <= s'.invoices.Keys
    && (forall p :: p in s'.payments && p !in rows ==>
          && p in s.payments && s'.payments[p] == s.payments[p]
          && p in abs.payments && abs'.payments[p] == abs.payments[p])
    && (forall i :: i in s'.invoices && i !in invs ==>
          && i in s.invoices && s'.invoices[i] == s.invoices[i]
          && i in abs.invoices && abs'.invoices[i] == abs.invoices[i])
  }

  /** Flow t becomes g: the touched rows are its own when it owes, and agree when it does not. */
  ghost predicate Hands(s: State, t: nat, g: Flow, s': Store, abs': Store, rows: set<Id>, invs: set<Id>)
    requires t in s.flows
  {
    && (Owing(s.flows[t].pc) ==> s.flows[t].pc.pid in rows && s.flows[t].pc.row.invoiceId in invs)
    && (Owing(g.pc) ==>
          && Ahead(s', g, abs')
          && (forall p :: p in rows ==> p == g.pc.pid)
          && (forall i :: i in invs ==> i == g.pc.row.invoiceId))
    && (!Owing(g.pc) ==>
          && (forall p :: p in rows && p in s'.payments && p in abs'.payments ==> abs'.payments[p] == s'.payments[p])
          && (forall i :: i in invs && i in s'.invoices && i in abs'.invoices ==> abs'.invoices[i] == s'.invoices[i]))
  }

  ghost predicate OthersApart(s: State, t: nat, rows: set<Id>, invs: set<Id>) {
    forall u :: u in s.flows && u != t && Owing(s.flows[u].pc) ==>
                  s.flows[u].pc.pid !in rows && s.flows[u].pc.row.invoiceId !in invs
  }

  /** The general step of the relation. */
  lemma RelMove(s: State, abs: Store, t: nat, g: Flow, store': Store, abs': Store, rows: set<Id>, invs: set<Id>)
    requires Rel(s, abs) && t in s.flows
    requires Touches(s.store, abs, store', abs', rows, invs)
    requires Hands(s, t, g, store', abs', rows, invs) && OthersApart(s, t, rows, invs)
    ensures Rel(State(store', s.flows[t := g]), abs')
  {
    var s' := State(store', s.flows[t := g]);
    forall p | p in store'.payments && !RowOwed(s', p)
      ensures abs'.payments[p] == store'.payments[p]
    {
      RowMove(s, t, g, store', rows, p);
    }
    forall i | i in store'.invoices && !InvoiceOwed(s', i)
      ensures abs'.invoices[i] == store'.invoices[i]
    {
      InvoiceMove(s, t, g, store', invs, i);
    }
    forall u | u in s'.flows && Owing(s'.flows[u].pc)
      ensures Ahead(store', s'.flows[u], abs')
    {
      if u != t {
        assert Ahead(s.store, s.flows[u], abs);
      }
    }
  }

  lemma RowMove(s: State, t: nat, g: Flow, store': Store, rows: set<Id>, p: Id)
    requires t in s.flows && !RowOwed(State(store', s.flows[t := g]), p)
    requires Owing(s.flows[t].pc) ==> s.flows[t].pc.pid in rows
    requires Owing(g.pc) ==> forall q :: q in rows ==> q == g.pc.pid
    ensures p !in rows ==> !RowOwed(s, p)
    ensures p in rows ==> !Owing(g.pc)
  {
    var s' := State(store', s.flows[t := g]);
    assert s'.flows[t] == g;
    forall u | u in s.flows && Owing(s.flows[u].pc)
      ensures p in rows || s.flows[u].pc.pid != p
    {
      assert u == t || s'.flows[u] == s.flows[u];
    }
  }

  lemma InvoiceMove(s: State, t: nat, g: Flow, store': Store, invs: set<Id>, i: Id)
    requires t in s.flows && !InvoiceOwed(State(store', s.flows[t := g]), i)
    requires Owing(s.flows[t].pc) ==> s.flows[t].pc.row.invoiceId in invs
    requires Owing(g.pc) ==> forall j :: j in invs ==> j == g.pc.row.invoiceId
    ensures i !in invs ==> !InvoiceOwed(s, i)
    ensures i in invs ==> !Owing(g.pc)
  {
    var s' := State(store', s.flows[t := g]);
    assert s'.flows[t] == g;
    forall u | u in s.flows && Owing(s.flows[u].pc)
      ensures i in invs || s.flows[u].pc.row.invoiceId != i
    {
      assert u == t || s'.flows[u] == s.flows[u];
    }
  }

  /** Flows that concern different invoices hold different rows. */
  lemma ApartFrom(s: State, t: nat, pid: Id, iid: Id)
    requires Tight(s) && t in s.flows && Concern(s.flows[t]) == Some(iid)
    requires pid in s.store.payments && s.store.payments[pid].invoiceId == iid
    ensures OthersApart(s, t, {pid}, {iid})
  {
    forall u | u in s.flows && u != t && Owing(s.flows[u].pc)
      ensures s.flows[u].pc.pid != pid && s.flows[u].pc.row.invoiceId != iid
    {
      assert IsCurrent(s.store, s.flows[u]) && FlowInv(s.store, s.flows[u]);
      assert Concern(s.flows[u]) == Some(s.flows[u].pc.row.invoiceId);
    }
  }

  // ---- The log ----

  lemma ListsCommit(log: seq<Entry>, flows: map<nat, Flow>, t: nat, g: Flow, e: Entry)
    requires Lists(log, flows) && t in flows && !Committed(flows[t].pc)
    requires Committed(g.pc) && e.tid == t && e.req == g.req == flows[t].req && SameResult(e.outcome, Verdict(g))
    ensures Lists(log + [e], flows[t := g])
  {
    var log', flows' := log + [e], flows[t := g];
    forall u | u in flows' && Committed(flows'[u].pc)
      ensures exists k :: 0 <= k < |log'| && log'[k].tid == u
    {
      if u == t {
        assert log'[|log|].tid == u;
      } else {
        var k :| 0 <= k < |log| && log[k].tid == u;
        assert log'[k].tid == u;
      }
    }
  }

  lemma ListsKeep(log: seq<Entry>, flows: map<nat, Flow>, t: nat, g: Flow)
    requires Lists(log, flows) && t in flows && g.req == flows[t].req
    requires Committed(g.pc) <==> Committed(flows[t].pc)
    requires Committed(g.pc) ==> Verdict(g) == Verdict(flows[t])
    ensures Lists(log, flows[t := g])
  {
  }

  lemma Uncommitted(pc: Pc)
    requires pc.Fresh? || pc.Resolved? || pc.Unseen? || pc.Holding? || pc.Quoted? || pc.Crashed?
    ensures !Committed(pc) && !Owing(pc)
  {
  }

  lemma Ended(g: Flow)
    requires g.pc.Done? || g.pc.Ordered? || g.pc.Refused? || g.pc.Billed?
    ensures Committed(g.pc) && Terminal(g.pc) && !Owing(g.pc) && Verdict(g) == g.pc
  {
  }

  // ---- What the serial store answers ----

  /** A capture can always run to completion; an open row may be named for it to take. */
  lemma CaptureCanRun(s: Store, d: Delivery, open: Option<Id>) returns (c: Choice)
    requires StoreInv(s)
    requires open.Some? ==>
               open.value in s.payments && HasOrder(s.payments[open.value], d.orderId)
               && s.payments[open.value].status == Created
    ensures AloneOk(s, Flow(Capture(d), Fresh), c)
    ensures open.Some? ==> c.pending == open
  {
    c := Choice(None, None, open, None, 0);
    if exists p :: p in s.payments && HasOrder(s.payments[p], d.orderId) {
      var p :| p in s.payments && HasOrder(s.payments[p], d.orderId);
      var row := s.payments[p];
      c := c.(resolved := Some(p));
      if exists q :: q in s.payments && HasPayId(s.payments[q], row.tenantId, d.payId) {
        var q :| q in s.payments && HasPayId(s.payments[q], row.tenantId, d.payId);
        c := c.(existing := Some(q));
        assert AloneOk(s, Flow(Capture(d), Resolved(p, row)), c);
      } else {
        OpenRowsShareTenant(s, d.orderId, p);
        if open.None? && exists q :: q in s.payments && IsOpen(s.payments[q], row.tenantId, d.orderId) {
          var q :| q in s.payments && IsOpen(s.payments[q], row.tenantId, d.orderId);
          c := c.(pending := Some(q));
        }
        if c.pending.Some? {
          RunsFromHolding(s, d, c.pending.value, c);
        }
        assert AloneOk(s, Flow(Capture(d), Unseen(p, row)), c);
        assert AloneOk(s, Flow(Capture(d), Resolved(p, row)), c);
      }
    }
  }

  // ---- One more entry of the log ----

  /** log' is log with one entry more, which takes the serial store to abs'. */
  ghost predicate Extends(s0: Store, log: seq<Entry>, log': seq<Entry>, t: nat, req: Request, abs': Store) {
    && |log'| == |log| + 1 && log'[..|log|] == log
    && log'[|log|].tid == t && log'[|log|].req == req
    && Serial(s0, log') && SerialAfter(s0, log') == abs' && StoreInv(abs')
  }

  lemma Append(s0: Store, log: seq<Entry>, t: nat, req: Request, c: Choice) returns (log': seq<Entry>)
    requires Serial(s0, log) && StoreInv(SerialAfter(s0, log)) && RequestOk(req)
    requires AloneOk(SerialAfter(s0, log), Flow(req, Fresh), c)
    ensures var r := Alone(SerialAfter(s0, log), Flow(req, Fresh), c);
            Extends(s0, log, log', t, req, r.0) && log'[|log|].outcome == r.1
  {
    var e := Entry(t, req, c, Alone(SerialAfter(s0, log), Flow(req, Fresh), c).1);
    log' := log + [e];
    SerialAppend(s0, log, e);
    AloneKeeps(SerialAfter(s0, log), Flow(req, Fresh), c);
    assert log'[..|log|] == log;
  }

  lemma AppendRefused(s0: Store, log: seq<Entry>, t: nat, d: Delivery) returns (log': seq<Entry>)
    requires Serial(s0, log) && StoreInv(SerialAfter(s0, log))
    requires PayIdUsed(SerialAfter(s0, log), d.payId) || !HasOpenRow(SerialAfter(s0, log), d.orderId)
    ensures Extends(s0, log, log', t, Capture(d), SerialAfter(s0, log))
    ensures log'[|log|].outcome.Done? && !log'[|log|].outcome.applied
  {
    var c := CaptureCanRun(SerialAfter(s0, log), d, None);
    CaptureAlone(SerialAfter(s0, log), d, c);
    log' := Append(s0, log, t, Capture(d), c);
  }

  lemma AppendClaim(s0: Store, log: seq<Entry>, t: nat, d: Delivery, pid: Id, abs: Store)
    returns (log': seq<Entry>, abs': Store)
    requires Serial(s0, log) && abs == SerialAfter(s0, log) && StoreInv(abs) && !PayIdUsed(abs, d.payId)
    requires pid in abs.payments && HasOrder(abs.payments[pid], d.orderId) && abs.payments[pid].status == Created
    ensures abs.payments[pid].invoiceId in abs.invoices && abs' == CaptureEffect(abs, d, pid)
    ensures Extends(s0, log, log', t, Capture(d), abs')
    ensures log'[|log|].outcome == CaptureOutcome(abs, d, pid)
  {
    var c := CaptureCanRun(abs, d, Some(pid));
    CaptureAlone(abs, d, c);
    log' := Append(s0, log, t, Capture(d), c);
    abs' := CaptureEffect(abs, d, pid);
  }

  // ---- One move simulated ----

  lemma Commit(s0: Store, s: State, log: seq<Entry>, log': seq<Entry>, t: nat, g: Flow, store': Store, abs': Store)
    requires Simulates(s0, s, log) && t in s.flows && !Committed(s.flows[t].pc)
    requires Extends(s0, log, log', t, g.req, abs') && g.req == s.flows[t].req
    requires Committed(g.pc) && SameResult(log'[|log|].outcome, Verdict(g))
    requires Rel(State(store', s.flows[t := g]), abs')
    ensures Simulates(s0, State(store', s.flows[t := g]), log')
  {
    assert log' == log + [log'[|log|]];
    ListsCommit(log, s.flows, t, g, log'[|log|]);
  }

  /** A flow commits by a step that writes the touched rows. */
  lemma CommitMove(s0: Store, s: State, log: seq<Entry>, log': seq<Entry>, t: nat, g: Flow, store': Store, abs': Store,
                   rows: set<Id>, invs: set<Id>)
    requires Simulates(s0, s, log) && t in s.flows && !Committed(s.flows[t].pc)
    requires Extends(s0, log, log', t, g.req, abs') && g.req == s.flows[t].req
    requires Committed(g.pc) && SameResult(log'[|log|].outcome, Verdict(g))
    requires Touches(s.store, SerialAfter(s0, log), store', abs', rows, invs)
    requires Hands(s, t, g, store', abs', rows, invs) && OthersApart(s, t, rows, invs)
    ensures Simulates(s0, State(store', s.flows[t := g]), log')
  {
    RelMove(s, SerialAfter(s0, log), t, g, store', abs', rows, invs);
    Commit(s0, s, log, log', t, g, store', abs');
  }

  lemma Unchanged(s: State, abs: Store, t: nat, g: Flow)
    requires Rel(s, abs) && t in s.flows && !Owing(s.flows[t].pc) && !Owing(g.pc)
    ensures Rel(State(s.store, s.flows[t := g]), abs)
  {
    RelMove(s, abs, t, g, s.store, abs, {}, {});
  }

  /** A flow ends without writing, and so does its entry. */
  lemma CommitUnchanged(s0: Store, s: State, log: seq<Entry>, log': seq<Entry>, t: nat, g: Flow)
    requires Simulates(s0, s, log) && t in s.flows && !Committed(s.flows[t].pc)
    requires Extends(s0, log, log', t, g.req, SerialAfter(s0, log)) && g.req == s.flows[t].req
    requires Terminal(g.pc) && !g.pc.Crashed? && SameResult(log'[|log|].outcome, g.pc)
    ensures Simulates(s0, State(s.store, s.flows[t := g]), log')
  {
    Unchanged(s, SerialAfter(s0, log), t, g);
    Commit(s0, s, log, log', t, g, s.store, SerialAfter(s0, log));
  }

  /** A capture that returns early, or loses its row's payment id, is refused in the serial order too. */
  lemma RefusedStep(s0: Store, s: State, log: seq<Entry>, t: nat, d: Delivery, g: Flow) returns (log': seq<Entry>)
    requires Simulates(s0, s, log) && t in s.flows && s.flows[t].req == Capture(d) == g.req
    requires !Committed(s.flows[t].pc) && g.pc.Done? && !g.pc.applied
    requires PayIdUsed(SerialAfter(s0, log), d.payId) || !HasOpenRow(SerialAfter(s0, log), d.orderId)
    ensures Simulates(s0, State(s.store, s.flows[t := g]), log')
    ensures Grown(log, log', t)
  {
    log' := AppendRefused(s0, log, t, d);
    CommitUnchanged(s0, s, log, log', t, g);
  }

  lemma UsedAlike(s: Store, abs: Store, q: Id, payId: string)
    requires Alike(s, abs) && q in s.payments && s.payments[q].gatewayPaymentId == Some(payId)
    ensures PayIdUsed(abs, payId)
  {
    assert abs.payments[q].gatewayPaymentId == Some(payId);
  }

  lemma NoOrderAlike(s: Store, abs: Store, orderId: string)
    requires Alike(s, abs) && FindsOrder(s, orderId, None)
    ensures !HasOpenRow(abs, orderId)
  {
  }

  lemma NoOpenAlike(s: Store, abs: Store, orderId: string, pid: Id)
    requires StoreInv(s) && Alike(s, abs) && pid in s.payments && HasOrder(s.payments[pid], orderId)
    requires FindsOpen(s, s.payments[pid].tenantId, orderId, None)
    ensures !HasOpenRow(abs, orderId)
  {
    OpenRowsShareTenant(s, orderId, pid);
  }

  /** Why the early returns are right in the serial store as well. */
  lemma EarlyReturnIsRefusal(s: Store, abs: Store, d: Delivery, pc: Pc, c: Choice)
    requires StoreInv(s) && Alike(s, abs) && FlowInv(s, Flow(Capture(d), pc))
    requires Answers(s, Flow(Capture(d), pc), c) && (pc.Fresh? || pc.Resolved? || pc.Unseen? || pc.Holding?)
    requires var pc' := NextCapture(s, d, pc, c).1; pc'.Done? && !pc'.applied
    ensures PayIdUsed(abs, d.payId) || !HasOpenRow(abs, d.orderId)
  {
    match pc
    case Fresh => NoOrderAlike(s, abs, d.orderId);
    case Resolved(_, _) => UsedAlike(s, abs, c.existing.value, d.payId);
    case Unseen(pid, row) => NoOpenAlike(s, abs, d.orderId, pid);
    case Holding(pid, _) =>
      var q :| q in s.payments && q != pid && s.payments[q].gatewayPaymentId == Some(d.payId);
      UsedAlike(s, abs, q, d.payId);
    case _ =>
  }

  lemma ClaimTouches(s: Store, abs: Store, d: Delivery, pid: Id, row: Payment, s': Store, abs': Store)
    requires abs.payments.Keys == s.payments.Keys && abs.invoices.Keys == s.invoices.Keys
    requires pid in s.payments && s.payments[pid] == row && abs.payments[pid] == row
    requires row.invoiceId in s.invoices && abs.invoices[row.invoiceId] == s.invoices[row.invoiceId]
    requires s' == SavePayment(s, pid, row, ClaimedDoc(row, d)) && abs' == CaptureEffect(abs, d, pid)
    ensures Touches(s, abs, s', abs', {pid}, {row.invoiceId})
    ensures Ahead(s', Flow(Capture(d), Claimed(pid, ClaimedDoc(row, d))), abs')
  {
    SavedUnread(row, d);
  }

  /** The row a holding flow read is still as it was. */
  lemma HoldingRow(s: State, t: nat, d: Delivery, pid: Id, row: Payment)
    requires Tight(s) && t in s.flows && s.flows[t] == Flow(Capture(d), Holding(pid, row))
    ensures pid in s.store.payments && s.store.payments[pid] == row && HasOrder(row, d.orderId)
    ensures row.status == Created && row.gatewayPaymentId == None && row.invoiceId in s.store.invoices
    ensures OthersApart(s, t, {pid}, {row.invoiceId})
  {
    assert IsCurrent(s.store, s.flows[t]) && FlowInv(s.store, s.flows[t]);
    assert PaymentOk(s.store, row);
    ApartFrom(s, t, pid, row.invoiceId);
  }

  /** The serial store agrees with it about the row and its invoice, and nobody used the payment id. */
  lemma HoldingAgrees(s: State, abs: Store, t: nat, d: Delivery, pid: Id, row: Payment)
    requires Tight(s) && Rel(s, abs) && t in s.flows && s.flows[t] == Flow(Capture(d), Holding(pid, row))
    requires !TakenElsewhere(s.store, pid, d.payId)
    ensures pid in abs.payments && abs.payments[pid] == row
    ensures row.invoiceId in s.store.invoices && row.invoiceId in abs.invoices
    ensures abs.invoices[row.invoiceId] == s.store.invoices[row.invoiceId]
    ensures !PayIdUsed(abs, d.payId)
  {
    Uncommitted(s.flows[t].pc);
    HoldingRow(s, t, d, pid, row);
    NotOwed(s, t, pid, row.invoiceId);
    NotUsedRel(s, abs, pid, d.payId);
  }

  lemma NotOwed(s: State, t: nat, pid: Id, iid: Id)
    requires OthersApart(s, t, {pid}, {iid}) && (t in s.flows ==> !Owing(s.flows[t].pc))
    ensures !RowOwed(s, pid) && !InvoiceOwed(s, iid)
  {
  }

  lemma NotUsedRel(s: State, abs: Store, pid: Id, payId: string)
    requires Tight(s) && Rel(s, abs) && pid in s.store.payments && s.store.payments[pid].gatewayPaymentId == None
    requires !TakenElsewhere(s.store, pid, payId)
    ensures !PayIdUsed(abs, payId)
  {
    RelAlike(s, abs);
    NotUsedAlike(s.store, abs, pid, payId);
  }

  /** The log's entry for a claim, and what its effect is next to the claim itself. */
  lemma ClaimEntry(s0: Store, s: Store, log: seq<Entry>, t: nat, d: Delivery, pid: Id, row: Payment, s': Store)
    returns (log': seq<Entry>, abs': Store)
    requires Serial(s0, log) && StoreInv(SerialAfter(s0, log)) && !PayIdUsed(SerialAfter(s0, log), d.payId)
    requires var abs := SerialAfter(s0, log);
             && abs.payments.Keys == s.payments.Keys && abs.invoices.Keys == s.invoices.Keys
             && pid in s.payments && s.payments[pid] == row && abs.payments[pid] == row
             && row.invoiceId in s.invoices && abs.invoices[row.invoiceId] == s.invoices[row.invoiceId]
    requires HasOrder(row, d.orderId) && row.status == Created && s' == SavePayment(s, pid, row, ClaimedDoc(row, d))
    ensures Extends(s0, log, log', t, Capture(d), abs')
    ensures Touches(s, SerialAfter(s0, log), s', abs', {pid}, {row.invoiceId})
    ensures var g := Flow(Capture(d), Claimed(pid, ClaimedDoc(row, d)));
            Ahead(s', g, abs') && SameResult(log'[|log|].outcome, Verdict(g))
  {
    log', abs' := AppendClaim(s0, log, t, d, pid, SerialAfter(s0, log));
    ClaimTouches(s, SerialAfter(s0, log), d, pid, row, s', abs');
  }

  /** A claim: the serial order serves the whole capture at this point. */
  lemma ClaimStep(s0: Store, s: State, log: seq<Entry>, t: nat, d: Delivery, pid: Id, row: Payment, g: Flow, s': Store)
    returns (log': seq<Entry>)
    requires Tight(s) && Simulates(s0, s, log)
    requires t in s.flows && s.flows[t] == Flow(Capture(d), Holding(pid, row))
    requires !TakenElsewhere(s.store, pid, d.payId)
    requires s' == SavePayment(s.store, pid, row, ClaimedDoc(row, d))
    requires g == Flow(Capture(d), Claimed(pid, ClaimedDoc(row, d)))
    ensures Simulates(s0, State(s', s.flows[t := g]), log')
    ensures Grown(log, log', t)
  {
    HoldingRow(s, t, d, pid, row);
    HoldingAgrees(s, SerialAfter(s0, log), t, d, pid, row);
    Uncommitted(s.flows[t].pc);
    log' := ClaimCommit(s0, s, log, t, d, pid, row, g, s');
  }

  lemma HandsClaim(s: State, t: nat, g: Flow, s': Store, abs': Store, pid: Id, iid: Id)
    requires t in s.flows && !Owing(s.flows[t].pc)
    requires Ahead(s', g, abs') && g.pc.pid == pid && g.pc.row.invoiceId == iid
    ensures Hands(s, t, g, s', abs', {pid}, {iid})
  {
  }

  lemma ClaimCommit(s0: Store, s: State, log: seq<Entry>, t: nat, d: Delivery, pid: Id, row: Payment,
                    g: Flow, s': Store)
    returns (log': seq<Entry>)
    requires Simulates(s0, s, log) && t in s.flows && s.flows[t].req == Capture(d) && !Committed(s.flows[t].pc)
    requires OthersApart(s, t, {pid}, {row.invoiceId}) && !PayIdUsed(SerialAfter(s0, log), d.payId)
    requires HasOrder(row, d.orderId) && row.status == Created
    requires var abs := SerialAfter(s0, log);
             && pid in s.store.payments && s.store.payments[pid] == row && abs.payments[pid] == row
             && row.invoiceId in s.store.invoices && abs.invoices[row.invoiceId] == s.store.invoices[row.invoiceId]
    requires s' == SavePayment(s.store, pid, row, ClaimedDoc(row, d))
    requires g == Flow(Capture(d), Claimed(pid, ClaimedDoc(row, d)))
    ensures Simulates(s0, State(s', s.flows[t := g]), log')
    ensures Grown(log, log', t)
  {
    var abs';
    log', abs' := ClaimEntry(s0, s.store, log, t, d, pid, row, s');
    HandsClaim(s, t, g, s', abs', pid, row.invoiceId);
    CommitMove(s0, s, log, log', t, g, s', abs', {pid}, {row.invoiceId});
  }

  lemma NotUsedAlike(s: Store, abs: Store, pid: Id, payId: string)
    requires Alike(s, abs) && pid in s.payments && s.payments[pid].gatewayPaymentId == None
    requires !TakenElsewhere(s, pid, payId)
    ensures !PayIdUsed(abs, payId)
  {
  }

  /** The rows of an owing flow are current, and the serial store is ahead of them. */
  ghost predicate Owes(s: Store, d: Delivery, pc: Pc, abs: Store) {
    && Owing(pc) && IsCurrent(s, Flow(Capture(d), pc)) && Ahead(s, Flow(Capture(d), pc), abs)
    && pc.row.invoiceId in s.invoices && s.invoices[pc.row.invoiceId].tenantId == pc.row.tenantId
    && (pc.Claimed? || d.amount >= 0)
    && abs.payments.Keys == s.payments.Keys && abs.invoices.Keys == s.invoices.Keys
  }

  /** An owing flow's step writes only what the serial store already holds. */
  lemma OwingWrites(s: Store, d: Delivery, pc: Pc, abs: Store, c: Choice)
    requires Owes(s, d, pc, abs)
    ensures var (s', pc') := NextCapture(s, d, pc, c);
            && Touches(s, abs, s', abs, {pc.pid}, {pc.row.invoiceId})
            && (Owing(pc') ==>
                  Ahead(s', Flow(Capture(d), pc'), abs)
                  && pc'.pid == pc.pid && pc'.row.invoiceId == pc.row.invoiceId)
            && (!Owing(pc') ==>
                  && pc.pid in s'.payments && abs.payments[pc.pid] == s'.payments[pc.pid]
                  && pc.row.invoiceId in s'.invoices
                  && abs.invoices[pc.row.invoiceId] == s'.invoices[pc.row.invoiceId])
            && Verdict(Flow(Capture(d), pc')) == Verdict(Flow(Capture(d), pc))
            && Committed(pc')
  {
    SavedUnread(pc.row, d);
    SavedUnreadInvoice(s.invoices[pc.row.invoiceId], d);
  }

  lemma OwingStep(s0: Store, s: State, log: seq<Entry>, t: nat, d: Delivery, c: Choice)
    requires Tight(s) && Simulates(s0, s, log) && t in s.flows && s.flows[t].req == Capture(d)
    requires Owing(s.flows[t].pc)
    ensures var (store', pc') := NextCapture(s.store, d, s.flows[t].pc, c);
            Simulates(s0, State(store', s.flows[t := Flow(Capture(d), pc')]), log)
  {
    var f, abs := s.flows[t], SerialAfter(s0, log);
    assert IsCurrent(s.store, f) && FlowInv(s.store, f) && Ahead(s.store, f, abs);
    assert PaymentOk(s.store, s.store.payments[f.pc.pid]);
    OwingWrites(s.store, d, f.pc, abs, c);
    ApartFrom(s, t, f.pc.pid, f.pc.row.invoiceId);
    OwingRel(s, abs, t, Flow(Capture(d), NextCapture(s.store, d, f.pc, c).1), NextCapture(s.store, d, f.pc, c).0);
    ListsKeep(log, s.flows, t, Flow(Capture(d), NextCapture(s.store, d, f.pc, c).1));
  }

  lemma OwingRel(s: State, abs: Store, t: nat, g: Flow, store': Store)
    requires Rel(s, abs) && t in s.flows && Owing(s.flows[t].pc)
    requires var pid, iid := s.flows[t].pc.pid, s.flows[t].pc.row.invoiceId;
             && Touches(s.store, abs, store', abs, {pid}, {iid})
             && OthersApart(s, t, {pid}, {iid})
             && (Owing(g.pc) ==> Ahead(store', g, abs) && g.pc.pid == pid && g.pc.row.invoiceId == iid)
             && (!Owing(g.pc) ==>
                   && pid in store'.payments && abs.payments[pid] == store'.payments[pid]
                   && iid in store'.invoices && abs.invoices[iid] == store'.invoices[iid])
    ensures Rel(State(store', s.flows[t := g]), abs)
  {
    HandsOwing(s, t, g, store', abs, s.flows[t].pc.pid, s.flows[t].pc.row.invoiceId);
    RelMove(s, abs, t, g, store', abs, {s.flows[t].pc.pid}, {s.flows[t].pc.row.invoiceId});
  }

  lemma HandsOwing(s: State, t: nat, g: Flow, s': Store, abs: Store, pid: Id, iid: Id)
    requires t in s.flows && Owing(s.flows[t].pc) && s.flows[t].pc.pid == pid && s.flows[t].pc.row.invoiceId == iid
    requires Owing(g.pc) ==> Ahead(s', g, abs) && g.pc.pid == pid && g.pc.row.invoiceId == iid
    requires !Owing(g.pc) ==>
               && pid in s'.payments && pid in abs.payments && abs.payments[pid] == s'.payments[pid]
               && iid in s'.invoices && iid in abs.invoices && abs.invoices[iid] == s'.invoices[iid]
    ensures Hands(s, t, g, s', abs, {pid}, {iid})
  {
  }

  /** An order takes its place where it inserts its row; the quote it read is still current. */
  lemma OrderInsertStep(s0: Store, s: State, log: seq<Entry>, t: nat, tenantId: string, iid: Id, inv: Invoice,
                        newId: Id, g: Flow, s': Store)
    returns (log': seq<Entry>)
    requires Tight(s) && Simulates(s0, s, log)
    requires t in s.flows && s.flows[t] == Flow(Order(tenantId, iid), Quoted(inv)) && newId !in s.store.payments
    requires s' == s.store.(payments := s.store.payments[newId := NewPayment(iid, inv)])
    requires g == Flow(Order(tenantId, iid), Ordered(newId))
    ensures Simulates(s0, State(s', s.flows[t := g]), log')
    ensures Grown(log, log', t)
  {
    var abs := SerialAfter(s0, log);
    QuoteAgrees(s, abs, t, tenantId, iid, inv);
    NewRowApart(s, t, newId);
    log' := OrderCommit(s0, s, log, t, tenantId, iid, inv, newId, g, s');
  }

  lemma OrderCommit(s0: Store, s: State, log: seq<Entry>, t: nat, tenantId: string, iid: Id, inv: Invoice, newId: Id,
                    g: Flow, s': Store)
    returns (log': seq<Entry>)
    requires Simulates(s0, s, log) && t in s.flows
    requires s.flows[t].req == Order(tenantId, iid) && !Committed(s.flows[t].pc)
    requires OthersApart(s, t, {newId}, {}) && newId !in s.store.payments
    requires var abs := SerialAfter(s0, log); iid in abs.invoices && abs.invoices[iid] == inv
    requires inv.tenantId == tenantId && inv.status != Paid
    requires s' == s.store.(payments := s.store.payments[newId := NewPayment(iid, inv)])
    requires g == Flow(Order(tenantId, iid), Ordered(newId))
    ensures Simulates(s0, State(s', s.flows[t := g]), log')
    ensures Grown(log, log', t)
  {
    var abs';
    log', abs' := OrderEntry(s0, s.store, log, t, tenantId, iid, inv, newId, s');
    Ended(g);
    HandsInsert(s, t, g, s', abs', newId);
    CommitMove(s0, s, log, log', t, g, s', abs', {newId}, {});
  }

  lemma QuoteAgrees(s: State, abs: Store, t: nat, tenantId: string, iid: Id, inv: Invoice)
    requires Tight(s) && Rel(s, abs) && t in s.flows && s.flows[t] == Flow(Order(tenantId, iid), Quoted(inv))
    ensures iid in abs.invoices && abs.invoices[iid] == inv && inv.tenantId == tenantId && inv.status != Paid
    ensures !Committed(s.flows[t].pc)
  {
    assert IsCurrent(s.store, s.flows[t]) && FlowInv(s.store, s.flows[t]);
    Settled(s, abs, t, iid);
  }

  lemma OrderEntry(s0: Store, s: Store, log: seq<Entry>, t: nat, tenantId: string, iid: Id, inv: Invoice,
                   newId: Id, s': Store)
    returns (log': seq<Entry>, abs': Store)
    requires Serial(s0, log) && StoreInv(SerialAfter(s0, log)) && newId !in s.payments
    requires var abs := SerialAfter(s0, log);
             && abs.payments.Keys == s.payments.Keys && abs.invoices.Keys == s.invoices.Keys
             && iid in abs.invoices && abs.invoices[iid] == inv
    requires inv.tenantId == tenantId && inv.status != Paid
    requires s' == s.(payments := s.payments[newId := NewPayment(iid, inv)])
    ensures Extends(s0, log, log', t, Order(tenantId, iid), abs') && log'[|log|].outcome == Ordered(newId)
    ensures Touches(s, SerialAfter(s0, log), s', abs', {newId}, {})
    ensures newId in s'.payments && newId in abs'.payments && abs'.payments[newId] == s'.payments[newId]
  {
    var c := Choice(None, None, None, None, newId);
    OrderCanRun(SerialAfter(s0, log), tenantId, iid, c);
    log' := Append(s0, log, t, Order(tenantId, iid), c);
    abs' := SerialAfter(s0, log');
    InsertTouches(s, SerialAfter(s0, log), newId, NewPayment(iid, inv), s', abs');
  }

  lemma OrderCanRun(abs: Store, tenantId: string, iid: Id, c: Choice)
    requires iid in abs.invoices && abs.invoices[iid].tenantId == tenantId && abs.invoices[iid].status != Paid
    requires c.newId !in abs.payments
    ensures AloneOk(abs, Flow(Order(tenantId, iid), Fresh), c)
    ensures Alone(abs, Flow(Order(tenantId, iid), Fresh), c)
         == (abs.(payments := abs.payments[c.newId := NewPayment(iid, abs.invoices[iid])]), Ordered(c.newId))
  {
    var f := Flow(Order(tenantId, iid), Quoted(abs.invoices[iid]));
    assert AloneOk(abs, f, c);
    assert Next(abs, Flow(f.req, Fresh), c) == (abs, f.pc);
    AloneStep(abs, Flow(f.req, Fresh), c);
  }

  lemma NewRowApart(s: State, t: nat, newId: Id)
    requires Tight(s) && newId !in s.store.payments
    ensures OthersApart(s, t, {newId}, {})
  {
    forall u | u in s.flows && u != t && Owing(s.flows[u].pc)
      ensures s.flows[u].pc.pid != newId
    {
      assert IsCurrent(s.store, s.flows[u]);
    }
  }

  lemma HandsInsert(s: State, t: nat, g: Flow, s': Store, abs': Store, newId: Id)
    requires t in s.flows && !Owing(s.flows[t].pc) && !Owing(g.pc)
    requires newId in s'.payments && newId in abs'.payments && abs'.payments[newId] == s'.payments[newId]
    ensures Hands(s, t, g, s', abs', {newId}, {})
  {
  }

  lemma InsertTouches(s: Store, abs: Store, newId: Id, row: Payment, s': Store, abs': Store)
    requires abs.payments.Keys == s.payments.Keys && abs.invoices.Keys == s.invoices.Keys && newId !in s.payments
    requires s' == s.(payments := s.payments[newId := row]) && abs' == abs.(payments := abs.payments[newId := row])
    ensures Touches(s, abs, s', abs', {newId}, {})
    ensures newId in s'.payments && newId in abs'.payments && abs'.payments[newId] == s'.payments[newId]
  {
  }

  lemma NobodyOwes(s: State, iid: Id)
    requires forall u :: u in s.flows ==> Concern(s.flows[u]) != Some(iid)
    ensures !InvoiceOwed(s, iid)
  {
    forall u | u in s.flows && Owing(s.flows[u].pc)
      ensures s.flows[u].pc.row.invoiceId != iid
    {
      assert Concern(s.flows[u]) != Some(iid);
    }
  }

  /** An order is refused where it reads, and nobody else is busy with its invoice then. */
  lemma OrderRefusedStep(s0: Store, s: State, log: seq<Entry>, t: nat, tenantId: string, iid: Id)
    returns (log': seq<Entry>)
    requires Tight(s) && Simulates(s0, s, log)
    requires t in s.flows && s.flows[t] == Flow(Order(tenantId, iid), Fresh)
    requires forall u :: u in s.flows ==> Concern(s.flows[u]) != Some(iid)
    requires !(iid in s.store.invoices && s.store.invoices[iid].tenantId == tenantId
               && s.store.invoices[iid].status != Paid)
    ensures Simulates(s0, State(s.store, s.flows[t := Flow(Order(tenantId, iid), Refused)]), log')
    ensures Grown(log, log', t)
  {
    var abs := SerialAfter(s0, log);
    NobodyOwes(s, iid);
    var c := Choice(None, None, None, None, 0);
    assert AloneOk(abs, Flow(Order(tenantId, iid), Fresh), c);
    log' := Append(s0, log, t, Order(tenantId, iid), c);
    CommitUnchanged(s0, s, log, log', t, Flow(Order(tenantId, iid), Refused));
  }

  /** An upsert is one operation: it takes its place where it runs. */
  lemma BillStep(s0: Store, s: State, log: seq<Entry>, t: nat, u: Upsert, c: Choice) returns (log': seq<Entry>)
    requires Tight(s) && Simulates(s0, s, log)
    requires t in s.flows && s.flows[t] == Flow(Bill(u), Fresh) && Answers(s.store, s.flows[t], c)
    ensures var (store', pc) := NextBill(s.store, u, Fresh, c);
            Simulates(s0, State(store', s.flows[t := Flow(Bill(u), pc)]), log')
    ensures Grown(log, log', t)
  {
    var abs := SerialAfter(s0, log);
    RelAlike(s, abs);
    assert FlowInv(s.store, s.flows[t]);
    BillCanRun(s.store, abs, u, c);
    log' := Append(s0, log, t, Bill(u), c);
    var (store', pc) := NextBill(s.store, u, Fresh, c);
    var g, abs' := Flow(Bill(u), pc), NextBill(abs, u, Fresh, c).0;
    if c.billed.Some? {
      CommitUnchanged(s0, s, log, log', t, g);
    } else {
      BillRel(s, abs, t, g, c.newId, NewInvoice(u), store', abs');
      Commit(s0, s, log, log', t, g, store', abs');
    }
  }

  lemma BillCanRun(s: Store, abs: Store, u: Upsert, c: Choice)
    requires Alike(s, abs) && Answers(s, Flow(Bill(u), Fresh), c)
    ensures AloneOk(abs, Flow(Bill(u), Fresh), c)
    ensures Alone(abs, Flow(Bill(u), Fresh), c) == NextBill(abs, u, Fresh, c)
  {
    assert Answers(abs, Flow(Bill(u), Fresh), c);
    assert AloneOk(abs, Flow(Bill(u), Fresh), c);
    AloneStep(abs, Flow(Bill(u), Fresh), c);
  }

  lemma BillRel(s: State, abs: Store, t: nat, g: Flow, newId: Id, row: Invoice, s': Store, abs': Store)
    requires Rel(s, abs) && t in s.flows && newId !in s.store.invoices
    requires !Owing(s.flows[t].pc) && !Owing(g.pc)
    requires s' == s.store.(invoices := s.store.invoices[newId := row])
    requires abs' == abs.(invoices := abs.invoices[newId := row])
    ensures Rel(State(s', s.flows[t := g]), abs')
  {
    forall u | u in s.flows && u != t && Owing(s.flows[u].pc)
      ensures s.flows[u].pc.row.invoiceId != newId
    {
      assert Ahead(s.store, s.flows[u], abs);
    }
    assert Touches(s.store, abs, s', abs', {}, {newId});
    RelMove(s, abs, t, g, s', abs', {}, {newId});
  }

  /** A move that reads and commits nothing. */
  lemma ReadStep(s0: Store, s: State, log: seq<Entry>, t: nat, g: Flow)
    requires Simulates(s0, s, log) && t in s.flows && g.req == s.flows[t].req
    requires !Committed(s.flows[t].pc) && !Committed(g.pc)
    ensures Simulates(s0, State(s.store, s.flows[t := g]), log)
  {
    Unchanged(s, SerialAfter(s0, log), t, g);
    ListsKeep(log, s.flows, t, g);
  }

  /** The four ways a capture moves. */
  lemma CaptureCases(s: State, d: Delivery, pc: Pc, c: Choice)
    requires Answers(s.store, Flow(Capture(d), pc), c) && FlowInv(s.store, Flow(Capture(d), pc))
    requires !Terminal(pc) && !Owing(pc)
    ensures var (s', pc') := NextCapture(s.store, d, pc, c);
            if pc'.Done? then s' == s.store && !pc'.applied && (pc.Fresh? || pc.Resolved? || pc.Unseen? || pc.Holding?)
            else if pc.Holding? then
              && !TakenElsewhere(s.store, pc.pid, d.payId)
              && s' == SavePayment(s.store, pc.pid, pc.row, ClaimedDoc(pc.row, d))
              && pc' == Claimed(pc.pid, ClaimedDoc(pc.row, d))
            else s' == s.store && !Committed(pc')
  {
  }

  lemma CaptureMove(s0: Store, s: State, log: seq<Entry>, t: nat, d: Delivery, c: Choice) returns (log': seq<Entry>)
    requires Tight(s) && Simulates(s0, s, log) && t in s.flows && s.flows[t].req == Capture(d)
    requires !Terminal(s.flows[t].pc) && Answers(s.store, s.flows[t], c)
    ensures var (s', pc') := NextCapture(s.store, d, s.flows[t].pc, c);
            Simulates(s0, State(s', s.flows[t := Flow(Capture(d), pc')]), log')
    ensures Grown(log, log', t)
  {
    var f := s.flows[t];
    log' := log;
    if Owing(f.pc) {
      OwingStep(s0, s, log, t, d, c);
    } else {
      assert FlowInv(s.store, f);
      CaptureCases(s, d, f.pc, c);
      var (s', pc') := NextCapture(s.store, d, f.pc, c);
      var g := Flow(Capture(d), pc');
      if pc'.Done? {
        RelAlike(s, SerialAfter(s0, log));
        EarlyReturnIsRefusal(s.store, SerialAfter(s0, log), d, f.pc, c);
        log' := RefusedStep(s0, s, log, t, d, g);
      } else if f.pc.Holding? {
        log' := ClaimStep(s0, s, log, t, d, f.pc.pid, f.pc.row, g, s');
      } else {
        ReadStep(s0, s, log, t, g);
      }
    }
  }

  lemma OrderMove(s0: Store, s: State, log: seq<Entry>, t: nat, tenantId: string, iid: Id, c: Choice)
    returns (log': seq<Entry>)
    requires Tight(s) && Simulates(s0, s, log) && t in s.flows && s.flows[t].req == Order(tenantId, iid)
    requires !Terminal(s.flows[t].pc) && Answers(s.store, s.flows[t], c)
    requires s.flows[t].pc.Fresh? ==> forall u :: u in s.flows ==> Concern(s.flows[u]) != Some(iid)
    ensures var (s', pc') := NextOrder(s.store, tenantId, iid, s.flows[t].pc, c);
            Simulates(s0, State(s', s.flows[t := Flow(Order(tenantId, iid), pc')]), log')
    ensures Grown(log, log', t)
  {
    var f := s.flows[t];
    assert FlowInv(s.store, f);
    var (store', pc) := NextOrder(s.store, tenantId, iid, f.pc, c);
    log' := log;
    Uncommitted(f.pc);
    if f.pc.Quoted? {
      log' := OrderInsertStep(s0, s, log, t, tenantId, iid, f.pc.inv, c.newId, Flow(f.req, pc), store');
    } else if pc.Refused? {
      log' := OrderRefusedStep(s0, s, log, t, tenantId, iid);
    } else {
      Uncommitted(pc);
      ReadStep(s0, s, log, t, Flow(f.req, pc));
    }
  }

  predicate InLog(log: seq<Entry>, t: nat) {
    exists k :: 0 <= k < |log| && log[k].tid == t
  }

  lemma InLogIff(log: seq<Entry>, flows: map<nat, Flow>, t: nat)
    requires Lists(log, flows) && t in flows
    ensures InLog(log, t) <==> Committed(flows[t].pc)
  {
  }

  lemma GrownByNew(log: seq<Entry>, log': seq<Entry>, t: nat)
    requires Grown(log, log', t) && forall j, k :: 0 <= j < k < |log'| ==> log'[j].tid != log'[k].tid
    ensures log' != log ==> InLog(log', t) && !InLog(log, t)
  {
    if log' != log {
      assert log'[|log|].tid == t;
      forall k | 0 <= k < |log|
        ensures log[k].tid != t
      {
        assert log'[k] == log[k];
      }
    }
  }

  /** A log that lists the committed flows grows exactly when the moving flow commits. */
  lemma GrownIff(log: seq<Entry>, log': seq<Entry>, flows: map<nat, Flow>, t: nat, g: Flow)
    requires Lists(log, flows) && Lists(log', flows[t := g]) && Grown(log, log', t) && t in flows
    ensures log' != log <==> !Committed(flows[t].pc) && Committed(g.pc)
  {
    assert flows[t := g][t] == g;
    InLogIff(log, flows, t);
    InLogIff(log', flows[t := g], t);
    GrownByNew(log, log', t);
  }

  /** One move is one request of the serial log, added where its flow commits (a capture at
      its claim or its early return, an order at its insert or refusal), or no request. */
  lemma MoveSimulated(s0: Store, s: State, log: seq<Entry>, m: Move) returns (log': seq<Entry>)
    requires Tight(s) && Simulates(s0, s, log) && Enabled(s, m) && Admitted(s, m)
    requires !(m.crash && Owing(s.flows[m.tid].pc))
    ensures Simulates(s0, Apply(s, m), log') && Grown(log, log', m.tid)
    ensures log' != log <==> !Committed(s.flows[m.tid].pc) && Committed(Apply(s, m).flows[m.tid].pc)
  {
    assert FlowInv(s.store, s.flows[m.tid]);
    if m.crash {
      log' := log;
      CrashStep(s0, s, log, m.tid);
    } else {
      match s.flows[m.tid].req
      case Capture(d) => log' := CaptureMove(s0, s, log, m.tid, d, m.choice);
      case Order(tenantId, iid) => log' := OrderMove(s0, s, log, m.tid, tenantId, iid, m.choice);
      case Bill(u) => log' := BillStep(s0, s, log, m.tid, u, m.choice);
    }
    GrownIff(log, log', s.flows, m.tid, Apply(s, m).flows[m.tid]);
  }

  /** A flow that dies before it commits leaves no trace. */
  lemma CrashStep(s0: Store, s: State, log: seq<Entry>, t: nat)
    requires Simulates(s0, s, log) && t in s.flows && !Terminal(s.flows[t].pc) && !Owing(s.flows[t].pc)
    ensures Simulates(s0, State(s.store, s.flows[t := Flow(s.flows[t].req, Crashed(s.flows[t].pc))]), log)
  {
    Uncommitted(s.flows[t].pc);
    Uncommitted(Crashed(s.flows[t].pc));
    ReadStep(s0, s, log, t, Flow(s.flows[t].req, Crashed(s.flows[t].pc)));
  }

  // ---- The theorem ----

  ghost predicate Finished(s: State) {
    forall u :: u in s.flows ==> Terminal(s.flows[u].pc)
  }

  ghost predicate NoneDiedOwing(s: State) {
    forall u :: u in s.flows ==> !DiedOwing(s.flows[u].pc)
  }

  /** No flow is, or died, between its claim and its credit. */
  ghost predicate Settles(s: State) {
    NoneDiedOwing(s) && forall u :: u in s.flows ==> !Owing(s.flows[u].pc)
  }

  /** The dead stay dead, so nobody had died owing before. */
  lemma DiedBefore(s: State, m: Move)
    requires Enabled(s, m) && NoneDiedOwing(Apply(s, m))
    ensures NoneDiedOwing(s) && !(m.crash && Owing(s.flows[m.tid].pc))
  {
    var t := Apply(s, m);
    assert !DiedOwing(t.flows[m.tid].pc);
    forall u | u in s.flows
      ensures !DiedOwing(s.flows[u].pc)
    {
      assert u != m.tid ==> t.flows[u] == s.flows[u];
    }
  }

  /** Each point of the run has its part of the log: the entries of the flows committed by then. */
  ghost predicate Prefixes(s0: State, ms: seq<Move>, log: seq<Entry>) {
    forall n :: 0 <= n <= |ms| ==> HasPrefix(s0, ms[..n], log)
  }

  ghost predicate HasPrefix(s0: State, ms: seq<Move>, log: seq<Entry>) {
    Run(s0, ms) && exists p :: 0 <= p <= |log| && Lists(log[..p], After(s0, ms).flows)
  }

  lemma HasPrefixGrown(s0: State, ms: seq<Move>, log: seq<Entry>, log': seq<Entry>, t: nat)
    requires HasPrefix(s0, ms, log) && Grown(log, log', t)
    ensures HasPrefix(s0, ms, log')
  {
    var p :| 0 <= p <= |log| && Lists(log[..p], After(s0, ms).flows);
    assert log'[..p] == log[..p];
  }

  lemma PrefixesStep(s0: State, ms: seq<Move>, log: seq<Entry>, log': seq<Entry>, t: nat)
    requires ms != [] && Run(s0, ms) && Prefixes(s0, ms[..|ms| - 1], log)
    requires Grown(log, log', t) && Lists(log', After(s0, ms).flows)
    ensures Prefixes(s0, ms, log')
  {
    var before := ms[..|ms| - 1];
    forall n | 0 <= n <= |ms|
      ensures HasPrefix(s0, ms[..n], log')
    {
      if n == |ms| {
        assert ms[..n] == ms && log'[..|log'|] == log';
      } else {
        assert ms[..n] == before[..n];
        HasPrefixGrown(s0, ms[..n], log, log', t);
      }
    }
  }

  lemma {:induction false} RunSimulated(s0: State, ms: seq<Move>) returns (log: seq<Entry>)
    requires Initial(s0) && ExclusiveRun(s0, ms) && NoneDiedOwing(After(s0, ms))
    ensures Simulates(s0.store, After(s0, ms), log) && Prefixes(s0, ms, log)
    decreases |ms|
  {
    if ms == [] {
      log := [];
      assert ms[..0] == [] && log[..0] == [];
      assert HasPrefix(s0, ms[..0], log);
    } else {
      var before, m := ms[..|ms| - 1], ms[|ms| - 1];
      DiedBefore(After(s0, before), m);
      var log0 := RunSimulated(s0, before);
      ExclusiveIsTight(s0, before);
      log := MoveSimulated(s0.store, After(s0, before), log0, m);
      PrefixesStep(s0, ms, log0, log, m.tid);
    }
  }

  /** Flow t has claimed its row or ended within the first n moves. */
  ghost predicate CommittedBy(s0: State, ms: seq<Move>, n: nat, t: nat) {
    && n <= |ms| && Run(s0, ms[..n])
    && t in After(s0, ms[..n]).flows && Committed(After(s0, ms[..n]).flows[t].pc)
  }

  /** The log has the requests in the order in which their flows committed. */
  ghost predicate InCommitOrder(s0: State, ms: seq<Move>, log: seq<Entry>) {
    forall n: nat, j, k ::
      (0 <= j < |log| && 0 <= k < |log|
       && CommittedBy(s0, ms, n, log[j].tid) && !CommittedBy(s0, ms, n, log[k].tid)) ==>
        j < k
  }

  lemma PrefixCommitted(s0: State, ms: seq<Move>, n: nat, log: seq<Entry>, p: nat)
    requires n <= |ms| && Run(s0, ms[..n]) && p <= |log| && Lists(log[..p], After(s0, ms[..n]).flows)
    ensures forall i :: 0 <= i < p ==> CommittedBy(s0, ms, n, log[i].tid)
  {
    forall i | 0 <= i < p
      ensures CommittedBy(s0, ms, n, log[i].tid)
    {
      assert log[..p][i] == log[i];
    }
  }

  lemma PrefixesOrder(s0: State, ms: seq<Move>, log: seq<Entry>)
    requires Run(s0, ms) && Prefixes(s0, ms, log) && Lists(log, After(s0, ms).flows)
    ensures InCommitOrder(s0, ms, log)
  {
    forall n: nat, j, k | 0 <= j < |log| && 0 <= k < |log|
                       && CommittedBy(s0, ms, n, log[j].tid) && !CommittedBy(s0, ms, n, log[k].tid)
      ensures j < k
    {
      assert HasPrefix(s0, ms[..n], log);
      var flows := After(s0, ms[..n]).flows;
      var p :| 0 <= p <= |log| && Lists(log[..p], flows);
      var i :| 0 <= i < p && log[..p][i].tid == log[j].tid;
      assert log[i].tid == log[j].tid && i == j;
      PrefixCommitted(s0, ms, n, log, p);
    }
  }

  /** Reduction. An exclusive interleaving, in which flows may die before they claim and need
      not all finish, ends in the store of a serial run of the requests that committed, each
      served once, in the order of their claims and early returns, with the same results. */
  lemma Reduction(s0: State, ms: seq<Move>) returns (log: seq<Entry>)
    requires Initial(s0) && ExclusiveRun(s0, ms) && Settles(After(s0, ms))
    ensures Serial(s0.store, log)
    ensures SerialAfter(s0.store, log) == After(s0, ms).store
    ensures Lists(log, After(s0, ms).flows) && InCommitOrder(s0, ms, log)
  {
    log := RunSimulated(s0, ms);
    PrefixesOrder(s0, ms, log);
    SettledAgree(After(s0, ms), SerialAfter(s0.store, log));
  }

  lemma SettledAgree(s: State, abs: Store)
    requires Rel(s, abs) && Settles(s)
    ensures abs == s.store
  {
    assert abs.payments == s.store.payments && abs.invoices == s.store.invoices;
  }
}
