/** Runs of the code as it is: what a stale claim, a stale snapshot and a crash do. */
module CaptureRaces {
  import opened Wrappers
  import opened Text
  import opened FeeCalc
  import opened CaptureProtocol
  import opened CaptureInvariants
  import opened CaptureSerial
  import opened CaptureReduction
  import opened CaptureSimulation
  import opened CaptureClaims

  /** One read of a delivery whose payment id is new and whose order has row pid open. */
  lemma TakeRead(s0: State, ms: seq<Move>, s: State, t: nat, d: Delivery, pc: Pc, pid: Id, row: Payment, pc': Pc)
    returns (ms': seq<Move>)
    requires Run(s0, ms) && After(s0, ms) == s && t in s.flows && s.flows[t] == Flow(Capture(d), pc)
    requires pid in s.store.payments && s.store.payments[pid] == row
    requires row.status == Created && HasOrder(row, d.orderId) && !PayIdUsed(s.store, d.payId)
    requires (pc == Fresh && pc' == Resolved(pid, row)) || (pc == Resolved(pid, row) && pc' == Unseen(pid, row))
          || (pc == Unseen(pid, row) && pc' == Holding(pid, row))
    ensures Run(s0, ms') && After(s0, ms') == State(s.store, s.flows[t := Flow(Capture(d), pc')])
  {
    ms' := Take(s0, ms, s, Move(t, Choice(Some(pid), None, Some(pid), None, 0), false));
  }

  /** A fresh delivery reads up to the CREATED row. */
  lemma ReadToHolding(s0: State, ms: seq<Move>, s: State, t: nat, d: Delivery, pid: Id, row: Payment)
    returns (ms': seq<Move>)
    requires Run(s0, ms) && After(s0, ms) == s && t in s.flows && s.flows[t] == Flow(Capture(d), Fresh)
    requires pid in s.store.payments && s.store.payments[pid] == row
    requires row.status == Created && HasOrder(row, d.orderId) && !PayIdUsed(s.store, d.payId)
    ensures Run(s0, ms') && After(s0, ms') == State(s.store, s.flows[t := Flow(Capture(d), Holding(pid, row))])
  {
    ms' := TakeRead(s0, ms, s, t, d, Fresh, pid, row, Resolved(pid, row));
    var s1 := State(s.store, s.flows[t := Flow(Capture(d), Resolved(pid, row))]);
    ms' := TakeRead(s0, ms', s1, t, d, Resolved(pid, row), pid, row, Unseen(pid, row));
    SetTwice(s.flows, t, s1.flows[t], Flow(Capture(d), Unseen(pid, row)));
    var s2 := State(s.store, s.flows[t := Flow(Capture(d), Unseen(pid, row))]);
    ms' := TakeRead(s0, ms', s2, t, d, Unseen(pid, row), pid, row, Holding(pid, row));
    SetTwice(s.flows, t, s2.flows[t], Flow(Capture(d), Holding(pid, row)));
  }

  lemma SetTwice(flows: map<nat, Flow>, t: nat, f: Flow, g: Flow)
    ensures flows[t := f][t := g] == flows[t := g]
  {
  }

  /** A flow that holds a row writes its payment id on it. */
  lemma TakeClaim(s0: State, ms: seq<Move>, s: State, t: nat, d: Delivery, pid: Id, row: Payment, store': Store)
    returns (ms': seq<Move>)
    requires Run(s0, ms) && After(s0, ms) == s && t in s.flows && s.flows[t] == Flow(Capture(d), Holding(pid, row))
    requires !TakenElsewhere(s.store, pid, d.payId) && store' == SavePayment(s.store, pid, row, ClaimedDoc(row, d))
    ensures Run(s0, ms')
    ensures After(s0, ms') == State(store', s.flows[t := Flow(Capture(d), Claimed(pid, ClaimedDoc(row, d)))])
  {
    ms' := Take(s0, ms, s, Move(t, Choice(None, None, None, None, 0), false));
  }

  /** A claimed flow reads its invoice. */
  lemma TakeLoad(s0: State, ms: seq<Move>, s: State, t: nat, d: Delivery, pid: Id, row: Payment, inv: Invoice)
    returns (ms': seq<Move>)
    requires Run(s0, ms) && After(s0, ms) == s && t in s.flows && s.flows[t] == Flow(Capture(d), Claimed(pid, row))
    requires row.invoiceId in s.store.invoices && s.store.invoices[row.invoiceId] == inv
    requires inv.tenantId == row.tenantId && d.amount >= 0
    ensures Run(s0, ms')
    ensures After(s0, ms') == State(s.store, s.flows[t := Flow(Capture(d), Loaded(pid, row, inv))])
  {
    ms' := Take(s0, ms, s, Move(t, Choice(None, None, None, None, 0), false));
  }

  /** A loaded flow with no receipt to save writes its credit. */
  lemma TakeCredit(s0: State, ms: seq<Move>, s: State, t: nat, d: Delivery, pid: Id, row: Payment, inv: Invoice,
                   store': Store)
    returns (ms': seq<Move>)
    requires Run(s0, ms) && After(s0, ms) == s && t in s.flows && s.flows[t] == Flow(Capture(d), Loaded(pid, row, inv))
    requires d.receipt == None && store' == SaveInvoice(s.store, row.invoiceId, inv, CreditedDoc(inv, d))
    ensures Run(s0, ms')
    ensures After(s0, ms') == State(store', s.flows[t := Flow(Capture(d), Done(true, Some(row.invoiceId)))])
  {
    ms' := Take(s0, ms, s, Move(t, Choice(None, None, None, None, 0), false));
  }

  function OpenInvoice(due: nat): Invoice {
    Invoice("t", 1, 1, InstallmentLabel(1), due, 0, 10, Pending, None)
  }

  function DeliveryOf(payId: string, amount: int): Delivery {
    Delivery(StubOrderId(0, 0), payId, amount, None, 1, 1, None)
  }

  /** One invoice with one order placed for it `rows` times, and two deliveries. */
  function TwoDeliveries(due: nat, rows: set<Id>, d: Delivery, e: Delivery): State {
    State(Store(map p | p in rows :: NewPayment(0, OpenInvoice(due)), map[0 := OpenInvoice(due)]),
          map[0 := Flow(Capture(d), Fresh), 1 := Flow(Capture(e), Fresh)])
  }

  lemma TwoDeliveriesInitial(due: nat, rows: set<Id>, d: Delivery, e: Delivery)
    ensures var s := TwoDeliveries(due, rows, d, e); Initial(s) && SerialInv(s.store)
    ensures forall x: string :: !PayIdUsed(TwoDeliveries(due, rows, d, e).store, x)
  {
    var s := TwoDeliveries(due, rows, d, e);
    assert forall p :: p in s.store.payments ==> PaymentOk(s.store, s.store.payments[p]);
  }

  /** The flows of the two deliveries. */
  function Pair(d: Delivery, p: Pc, e: Delivery, q: Pc): map<nat, Flow> {
    map[0 := Flow(Capture(d), p), 1 := Flow(Capture(e), q)]
  }

  /** Both deliveries read up to their rows p and q before either claims. */
  lemma BothHold(s0: State, d: Delivery, e: Delivery, p: Id, q: Id, row: Payment) returns (ms: seq<Move>)
    requires s0.flows == Pair(d, Fresh, e, Fresh)
    requires p in s0.store.payments && s0.store.payments[p] == row
    requires q in s0.store.payments && s0.store.payments[q] == row
    requires row.status == Created && HasOrder(row, d.orderId) && HasOrder(row, e.orderId)
    requires !PayIdUsed(s0.store, d.payId) && !PayIdUsed(s0.store, e.payId)
    ensures Run(s0, ms) && After(s0, ms) == State(s0.store, Pair(d, Holding(p, row), e, Holding(q, row)))
  {
    ms := ReadToHolding(s0, [], s0, 0, d, p, row);
    PairSet(d, Fresh, e, Fresh, Holding(p, row));
    ms := ReadToHolding(s0, ms, State(s0.store, Pair(d, Holding(p, row), e, Fresh)), 1, e, q, row);
    PairSet(d, Holding(p, row), e, Fresh, Holding(q, row));
  }

  /** Both claim, one after the other. */
  lemma BothClaim(s0: State, ms: seq<Move>, s: State, d: Delivery, e: Delivery, p: Id, q: Id, row: Payment,
                  st1: Store, st2: Store)
    returns (ms': seq<Move>)
    requires Run(s0, ms) && After(s0, ms) == s && s.flows == Pair(d, Holding(p, row), e, Holding(q, row))
    requires !TakenElsewhere(s.store, p, d.payId) && st1 == SavePayment(s.store, p, row, ClaimedDoc(row, d))
    requires !TakenElsewhere(st1, q, e.payId) && st2 == SavePayment(st1, q, row, ClaimedDoc(row, e))
    ensures Run(s0, ms')
    ensures After(s0, ms') == State(st2, Pair(d, Claimed(p, ClaimedDoc(row, d)), e, Claimed(q, ClaimedDoc(row, e))))
  {
    ms' := TakeClaim(s0, ms, s, 0, d, p, row, st1);
    PairSet(d, Holding(p, row), e, Holding(q, row), Claimed(p, ClaimedDoc(row, d)));
    var s1 := State(st1, Pair(d, Claimed(p, ClaimedDoc(row, d)), e, Holding(q, row)));
    ms' := TakeClaim(s0, ms', s1, 1, e, q, row, st2);
    PairSet(d, Claimed(p, ClaimedDoc(row, d)), e, Holding(q, row), Claimed(q, ClaimedDoc(row, e)));
  }

  lemma PairSet(d: Delivery, p: Pc, e: Delivery, q: Pc, r: Pc)
    ensures Pair(d, p, e, q)[0 := Flow(Capture(d), r)] == Pair(d, r, e, q)
    ensures Pair(d, p, e, q)[1 := Flow(Capture(e), r)] == Pair(d, p, e, r)
  {
  }

  /** A claimed delivery reads its invoice and credits it with nothing in between. */
  lemma LoadAndCredit(s0: State, ms: seq<Move>, s: State, t: nat, d: Delivery, p: Id, row: Payment, inv: Invoice)
    returns (ms': seq<Move>)
    requires Run(s0, ms) && After(s0, ms) == s && t in s.flows && s.flows[t] == Flow(Capture(d), Claimed(p, row))
    requires row.invoiceId in s.store.invoices && s.store.invoices[row.invoiceId] == inv
    requires inv.tenantId == row.tenantId && d.amount >= 0 && d.receipt == None
    ensures Run(s0, ms')
    ensures After(s0, ms') == State(s.store.(invoices := s.store.invoices[row.invoiceId := CreditedDoc(inv, d)]),
                                    s.flows[t := Flow(Capture(d), Done(true, Some(row.invoiceId)))])
  {
    ms' := TakeLoad(s0, ms, s, t, d, p, row, inv);
    var s1 := State(s.store, s.flows[t := Flow(Capture(d), Loaded(p, row, inv))]);
    SavedUnreadInvoice(inv, d);
    ms' := TakeCredit(s0, ms', s1, t, d, p, row, inv, SaveInvoice(s.store, row.invoiceId, inv, CreditedDoc(inv, d)));
    assert s1.flows[t := Flow(Capture(d), Done(true, Some(row.invoiceId)))]
        == s.flows[t := Flow(Capture(d), Done(true, Some(row.invoiceId)))];
  }

  /** Delivery 0 reads and credits the invoice, then delivery 1 does. */
  lemma CreditInTurn(s0: State, ms: seq<Move>, s: State, d: Delivery, e: Delivery, p: Id, q: Id,
                     r0: Payment, r1: Payment, inv: Invoice, st1: Store)
    returns (ms': seq<Move>)
    requires Run(s0, ms) && After(s0, ms) == s && s.flows == Pair(d, Claimed(p, r0), e, Claimed(q, r1))
    requires r0.invoiceId == r1.invoiceId == 0 && 0 in s.store.invoices && s.store.invoices[0] == inv
    requires inv.tenantId == r0.tenantId == r1.tenantId
    requires d.amount >= 0 && e.amount >= 0 && d.receipt == None && e.receipt == None
    requires st1 == s.store.(invoices := s.store.invoices[0 := CreditedDoc(inv, d)])
    ensures Run(s0, ms')
    ensures After(s0, ms') == State(st1.(invoices := st1.invoices[0 := CreditedDoc(CreditedDoc(inv, d), e)]),
                                    Pair(d, Done(true, Some(0)), e, Done(true, Some(0))))
  {
    ms' := LoadAndCredit(s0, ms, s, 0, d, p, r0, inv);
    PairSet(d, Claimed(p, r0), e, Claimed(q, r1), Done(true, Some(0)));
    var s1 := State(st1, Pair(d, Done(true, Some(0)), e, Claimed(q, r1)));
    ms' := LoadAndCredit(s0, ms', s1, 1, e, q, r1, CreditedDoc(inv, d));
    PairSet(d, Done(true, Some(0)), e, Claimed(q, r1), Done(true, Some(0)));
  }

  lemma BothLoad(s0: State, ms: seq<Move>, s: State, d: Delivery, e: Delivery, p: Id, q: Id,
                 r0: Payment, r1: Payment, inv: Invoice)
    returns (ms': seq<Move>)
    requires Run(s0, ms) && After(s0, ms) == s && s.flows == Pair(d, Claimed(p, r0), e, Claimed(q, r1))
    requires r0.invoiceId == r1.invoiceId == 0 && 0 in s.store.invoices && s.store.invoices[0] == inv
    requires inv.tenantId == r0.tenantId == r1.tenantId && d.amount >= 0 && e.amount >= 0
    ensures Run(s0, ms') && After(s0, ms') == State(s.store, Pair(d, Loaded(p, r0, inv), e, Loaded(q, r1, inv)))
  {
    ms' := TakeLoad(s0, ms, s, 0, d, p, r0, inv);
    PairSet(d, Claimed(p, r0), e, Claimed(q, r1), Loaded(p, r0, inv));
    ms' := TakeLoad(s0, ms', State(s.store, Pair(d, Loaded(p, r0, inv), e, Claimed(q, r1))), 1, e, q, r1, inv);
    PairSet(d, Loaded(p, r0, inv), e, Claimed(q, r1), Loaded(q, r1, inv));
  }

  lemma BothCredit(s0: State, ms: seq<Move>, s: State, d: Delivery, e: Delivery, p: Id, q: Id,
                   r0: Payment, r1: Payment, inv: Invoice, st1: Store, st2: Store)
    returns (ms': seq<Move>)
    requires Run(s0, ms) && After(s0, ms) == s && s.flows == Pair(d, Loaded(p, r0, inv), e, Loaded(q, r1, inv))
    requires r0.invoiceId == r1.invoiceId == 0 && d.receipt == None && e.receipt == None
    requires st1 == SaveInvoice(s.store, 0, inv, CreditedDoc(inv, d))
    requires st2 == SaveInvoice(st1, 0, inv, CreditedDoc(inv, e))
    ensures Run(s0, ms')
    ensures After(s0, ms') == State(st2, Pair(d, Done(true, Some(0)), e, Done(true, Some(0))))
  {
    ms' := TakeCredit(s0, ms, s, 0, d, p, r0, inv, st1);
    PairSet(d, Loaded(p, r0, inv), e, Loaded(q, r1, inv), Done(true, Some(0)));
    ms' := TakeCredit(s0, ms', State(st1, Pair(d, Done(true, Some(0)), e, Loaded(q, r1, inv))), 1, e, q, r1, inv, st2);
    PairSet(d, Done(true, Some(0)), e, Loaded(q, r1, inv), Done(true, Some(0)));
  }

  lemma SamePaymentsCounts(s: Store, t: Store)
    requires s.payments == t.payments
    ensures CapturedRows(s) == CapturedRows(t)
    ensures forall x: string :: PayIdUsed(s, x) <==> PayIdUsed(t, x)
  {
  }

  /** The row two claims were written on carries the second one's payment id. */
  lemma TwiceClaimed(st: Store, row: Payment, d: Delivery, e: Delivery, st1: Store, st2: Store)
    requires st.payments == map[0 := row] && row.gatewayPaymentId == None && row.status == Created
    requires st1 == SavePayment(st, 0, row, ClaimedDoc(row, d)) && st2 == SavePayment(st1, 0, row, ClaimedDoc(row, e))
    ensures !TakenElsewhere(st, 0, d.payId) && !TakenElsewhere(st1, 0, e.payId)
    ensures st2.invoices == st.invoices && CapturedRows(st2) == {0}
    ensures PayIdUsed(st2, e.payId) && (PayIdUsed(st2, d.payId) <==> d.payId == e.payId)
  {
    assert st2.payments[0].gatewayPaymentId == Some(e.payId);
  }

  /** Two deliveries read the same CREATED row, then both claim and credit it. Both return
      applied=true and the one captured row counts twice; had they carried different
      payment ids, the first is forgotten. */
  lemma SharedRowCreditsTwice(due: nat, x: int, a: string, b: string) returns (ms: seq<Move>)
    requires x > 0
    ensures var s0 := TwoDeliveries(due, {0}, DeliveryOf(a, x), DeliveryOf(b, x));
            && Initial(s0) && SerialInv(s0.store) && Run(s0, ms)
            && var s := After(s0, ms);
            && s.flows == Pair(DeliveryOf(a, x), Done(true, Some(0)), DeliveryOf(b, x), Done(true, Some(0)))
            && CapturedRows(s.store) == {0}
            && 0 in s.store.invoices && s.store.invoices[0].amountPaid == Min(due, x + x)
            && PayIdUsed(s.store, b) && (PayIdUsed(s.store, a) <==> a == b)
  {
    var d, e := DeliveryOf(a, x), DeliveryOf(b, x);
    var s0 := TwoDeliveries(due, {0}, d, e);
    TwoDeliveriesInitial(due, {0}, d, e);
    var row, inv := NewPayment(0, OpenInvoice(due)), OpenInvoice(due);
    ms := BothHold(s0, d, e, 0, 0, row);
    var s1 := State(s0.store, Pair(d, Holding(0, row), e, Holding(0, row)));
    var st1 := SavePayment(s0.store, 0, row, ClaimedDoc(row, d));
    var st2 := SavePayment(st1, 0, row, ClaimedDoc(row, e));
    assert s0.store.payments == map[0 := row];
    TwiceClaimed(s0.store, row, d, e, st1, st2);
    ms := BothClaim(s0, ms, s1, d, e, 0, 0, row, st1, st2);
    var s2 := State(st2, Pair(d, Claimed(0, ClaimedDoc(row, d)), e, Claimed(0, ClaimedDoc(row, e))));
    ms := CreditInTurn(s0, ms, s2, d, e, 0, 0, ClaimedDoc(row, d), ClaimedDoc(row, e), inv,
                       st2.(invoices := st2.invoices[0 := CreditedDoc(inv, d)]));
    SamePaymentsCounts(st2, After(s0, ms).store);
  }

  /** Invoice 0 after both deliveries credited it from the one snapshot. */
  function CreditedTwice(inv: Invoice, d: Delivery, e: Delivery): Invoice {
    SavedInvoice(CreditedDoc(inv, d), inv, CreditedDoc(inv, e))
  }

  /** Two deliveries, each with its own row, claim, read the invoice, and then both credit it. */
  lemma CreditFromOneSnapshot(s0: State, d: Delivery, e: Delivery, row: Payment, inv: Invoice) returns (ms: seq<Move>)
    requires s0.store == Store(map[0 := row, 1 := row], map[0 := inv]) && s0.flows == Pair(d, Fresh, e, Fresh)
    requires row.status == Created && row.gatewayPaymentId == None && row.invoiceId == 0 && row.tenantId == inv.tenantId
    requires HasOrder(row, d.orderId) && HasOrder(row, e.orderId) && d.payId != e.payId
    requires d.amount >= 0 && e.amount >= 0 && d.receipt == None && e.receipt == None
    ensures Run(s0, ms)
    ensures After(s0, ms).flows == Pair(d, Done(true, Some(0)), e, Done(true, Some(0)))
    ensures CapturedRows(After(s0, ms).store) == {0, 1}
    ensures After(s0, ms).store.invoices == map[0 := CreditedTwice(inv, d, e)]
  {
    ms := BothHold(s0, d, e, 0, 1, row);
    var s1 := State(s0.store, Pair(d, Holding(0, row), e, Holding(1, row)));
    var st1 := SavePayment(s0.store, 0, row, ClaimedDoc(row, d));
    var st2 := SavePayment(st1, 1, row, ClaimedDoc(row, e));
    ms := BothClaim(s0, ms, s1, d, e, 0, 1, row, st1, st2);
    var s2 := State(st2, Pair(d, Claimed(0, ClaimedDoc(row, d)), e, Claimed(1, ClaimedDoc(row, e))));
    ms := BothLoad(s0, ms, s2, d, e, 0, 1, ClaimedDoc(row, d), ClaimedDoc(row, e), inv);
    var s3 := State(st2, Pair(d, Loaded(0, ClaimedDoc(row, d), inv), e, Loaded(1, ClaimedDoc(row, e), inv)));
    var st3 := SaveInvoice(st2, 0, inv, CreditedDoc(inv, d));
    var st4 := SaveInvoice(st3, 0, inv, CreditedDoc(inv, e));
    ms := BothCredit(s0, ms, s3, d, e, 0, 1, ClaimedDoc(row, d), ClaimedDoc(row, e), inv, st3, st4);
    TwoCaptured(s0.store, row, d, e, st1, st2);
    SamePaymentsCounts(st2, st4);
    TwiceSaved(st2, inv, d, e, st3, st4);
  }

  lemma TwiceSaved(st: Store, inv: Invoice, d: Delivery, e: Delivery, st1: Store, st2: Store)
    requires st.invoices == map[0 := inv]
    requires st1 == SaveInvoice(st, 0, inv, CreditedDoc(inv, d)) && st2 == SaveInvoice(st1, 0, inv, CreditedDoc(inv, e))
    ensures st2.invoices == map[0 := CreditedTwice(inv, d, e)]
  {
    SavedUnreadInvoice(inv, d);
  }

  /** Two payments of one invoice whose credits start from the same snapshot: both are
      applied, and only the later credit is in the ledger. */
  lemma StaleSnapshotLosesACredit(due: nat, x: int, y: int) returns (ms: seq<Move>)
    requires x > 0 && y > 0
    ensures var s0 := TwoDeliveries(due, {0, 1}, DeliveryOf("a", x), DeliveryOf("b", y));
            && Initial(s0) && SerialInv(s0.store) && Run(s0, ms)
            && var s := After(s0, ms);
            && s.flows == Pair(DeliveryOf("a", x), Done(true, Some(0)), DeliveryOf("b", y), Done(true, Some(0)))
            && CapturedRows(s.store) == {0, 1}
            && 0 in s.store.invoices && s.store.invoices[0].amountPaid == Min(due, y)
  {
    var d, e := DeliveryOf("a", x), DeliveryOf("b", y);
    var s0 := TwoDeliveries(due, {0, 1}, d, e);
    TwoDeliveriesInitial(due, {0, 1}, d, e);
    var row, inv := NewPayment(0, OpenInvoice(due)), OpenInvoice(due);
    assert s0.store.payments == map[0 := row, 1 := row];
    ms := CreditFromOneSnapshot(s0, d, e, row, inv);
  }

  // ---- A stale snapshot can leave an unpaid invoice PAID ----

  function PartInvoice(due: nat, seen: nat): Invoice {
    Invoice("t", 1, 1, InstallmentLabel(1), due, seen, 10, Partial, None)
  }

  /** An invoice paid in part, with two orders placed for its balance, and two deliveries. */
  function TwoPayments(due: nat, seen: nat, x: int, y: int): State {
    var row := NewPayment(0, PartInvoice(due, seen));
    State(Store(map[0 := row, 1 := row], map[0 := PartInvoice(due, seen)]),
          Pair(PaymentOf(seen, "a", x), Fresh, PaymentOf(seen, "b", y), Fresh))
  }

  function PaymentOf(seen: nat, payId: string, amount: int): Delivery {
    Delivery(StubOrderId(0, seen), payId, amount, None, 1, 1, None)
  }

  lemma TwoPaymentsInitial(due: nat, seen: nat, x: int, y: int)
    requires 0 < seen < due
    ensures var s := TwoPayments(due, seen, x, y); Initial(s) && SerialInv(s.store)
  {
    var s := TwoPayments(due, seen, x, y);
    NewPaymentOk(s.store, 0, PartInvoice(due, seen));
  }

  /** One payment settles the invoice; another, smaller one, computed from the same snapshot,
      then takes the amount back but not the status. The invoice ends PAID with money
      outstanding, and no order can be placed for it any more. */
  lemma StaleSnapshotLeavesPaid(due: nat, seen: nat, x: int, y: int) returns (ms: seq<Move>)
    requires 0 < seen && 0 < y && seen + y < due <= seen + x
    ensures var s0 := TwoPayments(due, seen, x, y);
            && Initial(s0) && SerialInv(s0.store) && Run(s0, ms)
            && var s := After(s0, ms);
            && s.flows == Pair(PaymentOf(seen, "a", x), Done(true, Some(0)),
                               PaymentOf(seen, "b", y), Done(true, Some(0)))
            && 0 in s.store.invoices
            && s.store.invoices[0].amountPaid == seen + y < s.store.invoices[0].amountDue
            && s.store.invoices[0].status == Paid
            && (forall c :: AloneOk(s.store, Flow(Order("t", 0), Fresh), c) ==>
                  Alone(s.store, Flow(Order("t", 0), Fresh), c) == (s.store, Refused))
  {
    var s0, inv := TwoPayments(due, seen, x, y), PartInvoice(due, seen);
    TwoPaymentsInitial(due, seen, x, y);
    ms := CreditFromOneSnapshot(s0, PaymentOf(seen, "a", x), PaymentOf(seen, "b", y), NewPayment(0, inv), inv);
    PaidButShort(inv, PaymentOf(seen, "a", x), PaymentOf(seen, "b", y));
    var t := After(s0, ms).store;
    forall c | AloneOk(t, Flow(Order("t", 0), Fresh), c)
      ensures Alone(t, Flow(Order("t", 0), Fresh), c) == (t, Refused)
    {
      OrderAlone(t, "t", 0, c);
    }
  }

  lemma PaidButShort(inv: Invoice, d: Delivery, e: Delivery)
    requires inv.status == Partial && 0 < inv.amountPaid && 0 < e.amount
    requires inv.amountPaid + e.amount < inv.amountDue <= inv.amountPaid + d.amount
    ensures var twice := CreditedTwice(inv, d, e);
            && twice.status == Paid && twice.amountPaid == inv.amountPaid + e.amount
            && twice.amountDue == inv.amountDue && twice.tenantId == inv.tenantId
  {
  }

  lemma TwoCaptured(st: Store, row: Payment, d: Delivery, e: Delivery, st1: Store, st2: Store)
    requires st.payments == map[0 := row, 1 := row] && row.status == Created
    requires st1 == SavePayment(st, 0, row, ClaimedDoc(row, d)) && st2 == SavePayment(st1, 1, row, ClaimedDoc(row, e))
    ensures CapturedRows(st2) == {0, 1}
  {
    assert st2.payments[0].status == Captured && st2.payments[1].status == Captured;
  }

  // ---- A crash between the claim and the credit fits no serial order ----

  predicate OnlyRequest(log: seq<Entry>, d: Delivery) {
    forall k :: 0 <= k < |log| ==> log[k].req == Capture(d)
  }

  /** Serving one delivery any number of times applies it once, or not at all. */
  lemma {:induction false} ServedOnce(s: Store, log: seq<Entry>, d: Delivery)
    requires StoreInv(s) && s.payments.Keys == {0} && s.payments[0].status == Created
    requires HasOrder(s.payments[0], d.orderId) && !PayIdUsed(s, d.payId)
    requires Serial(s, log) && OnlyRequest(log, d)
    ensures s.payments[0].invoiceId in s.invoices
    ensures SerialAfter(s, log) == s || SerialAfter(s, log) == CaptureEffect(s, d, 0)
    decreases |log|
  {
    assert PaymentOk(s, s.payments[0]);
    if log != [] {
      var before, e := log[..|log| - 1], log[|log| - 1];
      ServedOnce(s, before, d);
      ServedAgain(s, SerialAfter(s, before), d, e.choice);
    }
  }

  lemma EffectIsOk(s: Store, d: Delivery)
    requires StoreInv(s) && 0 in s.payments && s.payments[0].status == Created
    requires HasOrder(s.payments[0], d.orderId) && !PayIdUsed(s, d.payId) && s.payments[0].invoiceId in s.invoices
    ensures StoreInv(CaptureEffect(s, d, 0)) && PayIdUsed(CaptureEffect(s, d, 0), d.payId)
  {
    var c := CaptureCanRun(s, d, Some(0));
    CaptureAlone(s, d, c);
    AloneKeeps(s, Flow(Capture(d), Fresh), c);
    assert CaptureEffect(s, d, 0).payments[0].gatewayPaymentId == Some(d.payId);
  }

  lemma ServedAgain(s: Store, t: Store, d: Delivery, c: Choice)
    requires StoreInv(s) && s.payments.Keys == {0} && s.payments[0].status == Created
    requires HasOrder(s.payments[0], d.orderId) && !PayIdUsed(s, d.payId) && s.payments[0].invoiceId in s.invoices
    requires t == s || t == CaptureEffect(s, d, 0)
    requires AloneOk(t, Flow(Capture(d), Fresh), c)
    ensures Alone(t, Flow(Capture(d), Fresh), c).0 == CaptureEffect(s, d, 0)
  {
    EffectIsOk(s, d);
    CaptureAlone(t, d, c);
    if t == s {
      assert HasOpenRow(s, d.orderId);
    }
  }

  function OneDelivery(due: nat, d: Delivery): State {
    State(Store(map[0 := NewPayment(0, OpenInvoice(due))], map[0 := OpenInvoice(due)]),
          map[0 := Flow(Capture(d), Fresh)])
  }

  lemma OneDeliveryInitial(due: nat, d: Delivery)
    ensures var s := OneDelivery(due, d); Initial(s) && SerialInv(s.store)
    ensures !PayIdUsed(OneDelivery(due, d).store, d.payId)
  {
    var s := OneDelivery(due, d);
    assert forall p :: p in s.store.payments ==> PaymentOk(s.store, s.store.payments[p]);
  }

  /** The reduction has to leave out flows that died between their claim and their credit:
      one delivery that does leaves a store no serial run of it, however often served, ends in. */
  lemma DiedOwingIsNotSerial(due: nat, x: int, a: string) returns (ms: seq<Move>)
    requires due > 0 && x > 0
    ensures var d := DeliveryOf(a, x);
            var s0 := OneDelivery(due, d);
            && Initial(s0) && SerialInv(s0.store) && Run(s0, ms)
            && 0 in After(s0, ms).flows && DiedOwing(After(s0, ms).flows[0].pc)
            && (forall log :: Serial(s0.store, log) && OnlyRequest(log, d) ==>
                  SerialAfter(s0.store, log) != After(s0, ms).store)
  {
    var d := DeliveryOf(a, x);
    var s0, row := OneDelivery(due, d), NewPayment(0, OpenInvoice(due));
    OneDeliveryInitial(due, d);
    ms := ReadToHolding(s0, [], s0, 0, d, 0, row);
    var s1 := State(s0.store, s0.flows[0 := Flow(Capture(d), Holding(0, row))]);
    var st := SavePayment(s0.store, 0, row, ClaimedDoc(row, d));
    ms := TakeClaim(s0, ms, s1, 0, d, 0, row, st);
    var s2 := State(st, s1.flows[0 := Flow(Capture(d), Claimed(0, ClaimedDoc(row, d)))]);
    ms := Take(s0, ms, s2, Move(0, Choice(None, None, None, None, 0), true));
    NeitherStore(s0.store, st, d, row);
    forall log | Serial(s0.store, log) && OnlyRequest(log, d)
      ensures SerialAfter(s0.store, log) != st
    {
      ServedOnce(s0.store, log, d);
    }
  }

  lemma NeitherStore(s: Store, st: Store, d: Delivery, row: Payment)
    requires s.payments == map[0 := row] && row.status == Created && row.invoiceId in s.invoices
    requires InvoiceOk(s.invoices[row.invoiceId])
    requires s.invoices[row.invoiceId].amountPaid < s.invoices[row.invoiceId].amountDue
    requires d.amount > 0 && st == SavePayment(s, 0, row, ClaimedDoc(row, d))
    ensures st != s && st != CaptureEffect(s, d, 0)
  {
    assert st.payments[0].status == Captured;
    assert CaptureEffect(s, d, 0).invoices[row.invoiceId].amountPaid > s.invoices[row.invoiceId].amountPaid;
  }
}
