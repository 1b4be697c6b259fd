/** What every step of every interleaving keeps, crashes included. */
module CaptureInvariants {
  import opened Wrappers
  import opened Text
  import opened FeeCalc
  import opened CaptureProtocol

  // ---- The invariant ----

  predicate InvoiceOk(inv: Invoice) {
    0 <= inv.amountPaid <= inv.amountDue
  }

  /** A row carries a gateway payment id exactly when it is CAPTURED, and its order id
      names its invoice and the balance it was created for. */
  predicate PaymentOk(s: Store, row: Payment) {
    && row.status != Failed
    && (row.status == Captured <==> row.gatewayPaymentId.Some?)
    && row.invoiceId in s.invoices
    && var inv := s.invoices[row.invoiceId];
    && row.tenantId == inv.tenantId
    && 0 <= row.amount <= inv.amountDue
    && row.gatewayOrderId == StubOrderId(row.invoiceId, inv.amountDue - row.amount)
  }

  ghost predicate UniquePayIds(s: Store) {
    forall p, q :: p in s.payments && q in s.payments && p != q
                   && s.payments[p].gatewayPaymentId.Some? ==>
                     s.payments[p].gatewayPaymentId != s.payments[q].gatewayPaymentId
  }

  ghost predicate StoreInv(s: Store) {
    && (forall i :: i in s.invoices ==> InvoiceOk(s.invoices[i]))
    && (forall p :: p in s.payments ==> PaymentOk(s, s.payments[p]))
    && UniquePayIds(s)
  }

  /** The fields of an invoice nothing writes after the insert. */
  predicate SameInvoice(a: Invoice, b: Invoice) {
    SameKey(a, b) && a.amountDue == b.amountDue && a.dueDate == b.dueDate
  }

  predicate SamePayment(a: Payment, b: Payment) {
    && a.tenantId == b.tenantId && a.invoiceId == b.invoiceId && a.studentId == b.studentId
    && a.amount == b.amount && a.gatewayOrderId == b.gatewayOrderId
  }

  /** What holds between a store and any later one: no row disappears, what identifies
      a row never changes, and a CAPTURED row stays CAPTURED. */
  ghost predicate Evolves(s: Store, t: Store) {
    && (forall i :: i in s.invoices ==> i in t.invoices && SameInvoice(s.invoices[i], t.invoices[i]))
    && (forall p :: p in s.payments ==>
          && p in t.payments
          && SamePayment(s.payments[p], t.payments[p])
          && (s.payments[p].status == Captured ==> t.payments[p].status == Captured))
  }

  predicate RequestOk(req: Request) {
    req.Bill? ==> 0 <= req.u.amountDue
  }

  predicate ReadOf(s: Store, pid: Id, row: Payment) {
    pid in s.payments && SamePayment(row, s.payments[pid])
  }

  predicate QuoteOf(s: Store, iid: Id, inv: Invoice) {
    iid in s.invoices && SameInvoice(inv, s.invoices[iid]) && InvoiceOk(inv)
  }

  /** What a flow's snapshots, however stale, still say about the store. */
  predicate FlowInv(s: Store, f: Flow) {
    && RequestOk(f.req)
    && Fits(f)
    && match f.pc {
         case Resolved(pid, row) => ReadOf(s, pid, row) && HasOrder(row, f.req.d.orderId)
         case Unseen(pid, row) => ReadOf(s, pid, row) && HasOrder(row, f.req.d.orderId)
         case Holding(pid, row) =>
           && ReadOf(s, pid, row) && HasOrder(row, f.req.d.orderId)
           && row.status == Created && row.gatewayPaymentId == None
         case Claimed(pid, row) => ReadOf(s, pid, row) && s.payments[pid].status == Captured
         case Loaded(pid, row, inv) =>
           && ReadOf(s, pid, row) && s.payments[pid].status == Captured
           && f.req.d.amount >= 0 && QuoteOf(s, row.invoiceId, inv)
         case Stamped(pid, row, inv) =>
           && ReadOf(s, pid, row) && s.payments[pid].status == Captured
           && f.req.d.amount >= 0 && QuoteOf(s, row.invoiceId, inv)
         case Quoted(inv) =>
           QuoteOf(s, f.req.invoiceId, inv) && inv.tenantId == f.req.tenantId && inv.status != Paid
         case _ => true
       }
  }

  ghost predicate Inv(s: State) {
    StoreInv(s.store) && forall t :: t in s.flows ==> FlowInv(s.store, s.flows[t])
  }

  // ---- One step ----

  lemma EvolvesTransitive(s: Store, t: Store, u: Store)
    requires Evolves(s, t) && Evolves(t, u)
    ensures Evolves(s, u)
  {
    forall p | p in s.payments
      ensures p in u.payments && SamePayment(s.payments[p], u.payments[p])
      ensures s.payments[p].status == Captured ==> u.payments[p].status == Captured
    {
      assert p in t.payments;
    }
    forall i | i in s.invoices
      ensures i in u.invoices && SameInvoice(s.invoices[i], u.invoices[i])
    {
      assert i in t.invoices;
    }
  }

  /** A flow's facts survive whatever the others do. */
  lemma FlowInvStable(s: Store, t: Store, f: Flow)
    requires FlowInv(s, f) && Evolves(s, t)
    ensures FlowInv(t, f)
  {
  }

  /** A row stays in order when its identity and its invoice's do. */
  lemma PaymentOkStable(s: Store, t: Store, row: Payment, row': Payment)
    requires PaymentOk(s, row) && SamePayment(row, row')
    requires row'.status != Failed && (row'.status == Captured <==> row'.gatewayPaymentId.Some?)
    requires row.invoiceId in t.invoices && SameInvoice(s.invoices[row.invoiceId], t.invoices[row.invoiceId])
    ensures PaymentOk(t, row')
  {
  }

  lemma UpdatePaymentKeeps(s: Store, pid: Id, row: Payment)
    requires StoreInv(s) && pid in s.payments && SamePayment(s.payments[pid], row)
    requires row.status != Failed && (row.status == Captured <==> row.gatewayPaymentId.Some?)
    requires s.payments[pid].status == Captured ==> row.status == Captured
    requires row.gatewayPaymentId.Some? ==> !TakenElsewhere(s, pid, row.gatewayPaymentId.value)
    ensures var t := s.(payments := s.payments[pid := row]); StoreInv(t) && Evolves(s, t)
  {
    var t := s.(payments := s.payments[pid := row]);
    forall p | p in t.payments
      ensures PaymentOk(t, t.payments[p])
    {
      PaymentOkStable(s, t, s.payments[p], t.payments[p]);
    }
    assert UniquePayIds(t);
  }

  lemma SavePaymentKeeps(s: Store, pid: Id, read: Payment, doc: Payment)
    requires StoreInv(s) && pid in s.payments
    requires var row := SavedPayment(s.payments[pid], read, doc);
             && (row.status == Captured <==> row.gatewayPaymentId.Some?)
             && row.status != Failed
             && (s.payments[pid].status == Captured ==> row.status == Captured)
             && (row.gatewayPaymentId.Some? ==> !TakenElsewhere(s, pid, row.gatewayPaymentId.value))
    ensures StoreInv(SavePayment(s, pid, read, doc)) && Evolves(s, SavePayment(s, pid, read, doc))
  {
    UpdatePaymentKeeps(s, pid, SavedPayment(s.payments[pid], read, doc));
  }

  lemma SaveInvoiceKeeps(s: Store, iid: Id, read: Invoice, d: Delivery)
    requires StoreInv(s) && QuoteOf(s, iid, read) && d.amount >= 0
    ensures var t := SaveInvoice(s, iid, read, CreditedDoc(read, d)); StoreInv(t) && Evolves(s, t)
  {
    var t := SaveInvoice(s, iid, read, CreditedDoc(read, d));
    assert InvoiceOk(s.invoices[iid]);
    forall p | p in t.payments
      ensures PaymentOk(t, t.payments[p])
    {
      PaymentOkStable(s, t, s.payments[p], t.payments[p]);
    }
  }

  lemma ClaimKeeps(s: Store, d: Delivery, pid: Id, row: Payment, c: Choice)
    requires StoreInv(s) && FlowInv(s, Flow(Capture(d), Holding(pid, row)))
    ensures var (t, pc') := NextCapture(s, d, Holding(pid, row), c);
            StoreInv(t) && FlowInv(t, Flow(Capture(d), pc')) && Evolves(s, t)
  {
    if !TakenElsewhere(s, pid, d.payId) {
      SavePaymentKeeps(s, pid, row, ClaimedDoc(row, d));
    }
  }

  lemma StampKeeps(s: Store, d: Delivery, pid: Id, row: Payment)
    requires StoreInv(s) && pid in s.payments && s.payments[pid].status == Captured
    ensures var t := SavePayment(s, pid, row, StampedDoc(row, d)); StoreInv(t) && Evolves(s, t)
  {
    assert PaymentOk(s, s.payments[pid]);
    assert !TakenElsewhere(s, pid, s.payments[pid].gatewayPaymentId.value);
    SavePaymentKeeps(s, pid, row, StampedDoc(row, d));
  }

  lemma CreditKeeps(s: Store, d: Delivery, pc: Pc, c: Choice)
    requires StoreInv(s) && FlowInv(s, Flow(Capture(d), pc)) && (pc.Stamped? || pc.Loaded?)
    ensures var (t, pc') := NextCapture(s, d, pc, c);
            StoreInv(t) && FlowInv(t, Flow(Capture(d), pc')) && Evolves(s, t)
  {
    if pc.Loaded? && d.receipt.Some? {
      StampKeeps(s, d, pc.pid, pc.row);
    } else {
      SaveInvoiceKeeps(s, pc.row.invoiceId, pc.inv, d);
    }
  }

  /** The reading steps of a capture change nothing. */
  lemma ReadKeeps(s: Store, d: Delivery, pc: Pc, c: Choice)
    requires StoreInv(s) && FlowInv(s, Flow(Capture(d), pc)) && Answers(s, Flow(Capture(d), pc), c)
    requires !pc.Holding? && !pc.Loaded? && !pc.Stamped?
    ensures var (t, pc') := NextCapture(s, d, pc, c);
            t == s && FlowInv(s, Flow(Capture(d), pc'))
  {
    if pc.Unseen? && c.pending.Some? {
      assert PaymentOk(s, s.payments[c.pending.value]);
    }
    if pc.Claimed? && pc.row.invoiceId in s.invoices {
      assert InvoiceOk(s.invoices[pc.row.invoiceId]);
    }
  }

  lemma CaptureKeeps(s: Store, d: Delivery, pc: Pc, c: Choice)
    requires StoreInv(s) && FlowInv(s, Flow(Capture(d), pc)) && Answers(s, Flow(Capture(d), pc), c)
    ensures var (t, pc') := NextCapture(s, d, pc, c);
            StoreInv(t) && FlowInv(t, Flow(Capture(d), pc')) && Evolves(s, t)
  {
    if pc.Holding? {
      ClaimKeeps(s, d, pc.pid, pc.row, c);
    } else if pc.Loaded? || pc.Stamped? {
      CreditKeeps(s, d, pc, c);
    } else {
      ReadKeeps(s, d, pc, c);
      EvolvesSelf(s);
    }
  }

  lemma EvolvesSelf(s: Store)
    ensures Evolves(s, s)
  {
  }

  lemma OrderKeeps(s: Store, tenantId: string, iid: Id, pc: Pc, c: Choice)
    requires StoreInv(s) && FlowInv(s, Flow(Order(tenantId, iid), pc)) && Answers(s, Flow(Order(tenantId, iid), pc), c)
    ensures var (t, pc') := NextOrder(s, tenantId, iid, pc, c);
            StoreInv(t) && FlowInv(t, Flow(Order(tenantId, iid), pc')) && Evolves(s, t)
  {
    if pc.Quoted? {
      InsertPaymentKeeps(s, c.newId, iid, pc.inv);
    }
  }

  lemma InsertPaymentKeeps(s: Store, newId: Id, iid: Id, inv: Invoice)
    requires StoreInv(s) && newId !in s.payments && QuoteOf(s, iid, inv)
    ensures var t := s.(payments := s.payments[newId := NewPayment(iid, inv)]);
            StoreInv(t) && Evolves(s, t)
  {
    var t := s.(payments := s.payments[newId := NewPayment(iid, inv)]);
    NewPaymentOk(t, iid, inv);
    forall p | p in t.payments
      ensures PaymentOk(t, t.payments[p])
    {
      if p != newId {
        PaymentOkStable(s, t, s.payments[p], t.payments[p]);
      }
    }
  }

  lemma NewPaymentOk(s: Store, iid: Id, inv: Invoice)
    requires QuoteOf(s, iid, inv)
    ensures PaymentOk(s, NewPayment(iid, inv))
  {
    assert inv.amountDue - NewPayment(iid, inv).amount == inv.amountPaid;
  }

  lemma InsertInvoiceKeeps(s: Store, newId: Id, inv: Invoice)
    requires StoreInv(s) && newId !in s.invoices && InvoiceOk(inv)
    ensures var t := s.(invoices := s.invoices[newId := inv]);
            StoreInv(t) && Evolves(s, t)
  {
    var t := s.(invoices := s.invoices[newId := inv]);
    forall p | p in t.payments
      ensures PaymentOk(t, t.payments[p])
    {
      PaymentOkStable(s, t, s.payments[p], t.payments[p]);
    }
  }

  lemma BillKeeps(s: Store, u: Upsert, pc: Pc, c: Choice)
    requires StoreInv(s) && FlowInv(s, Flow(Bill(u), pc)) && Answers(s, Flow(Bill(u), pc), c)
    ensures var (t, pc') := NextBill(s, u, pc, c);
            StoreInv(t) && FlowInv(t, Flow(Bill(u), pc')) && Evolves(s, t)
  {
    if pc.Fresh? && c.billed.None? {
      InsertInvoiceKeeps(s, c.newId, NewInvoice(u));
    } else {
      EvolvesSelf(s);
    }
  }

  lemma NextKeeps(s: Store, f: Flow, c: Choice)
    requires StoreInv(s) && FlowInv(s, f) && Answers(s, f, c)
    ensures var (t, pc') := Next(s, f, c);
            StoreInv(t) && FlowInv(t, Flow(f.req, pc')) && Evolves(s, t)
  {
    match f.req
    case Capture(d) => CaptureKeeps(s, d, f.pc, c);
    case Order(tenantId, iid) => OrderKeeps(s, tenantId, iid, f.pc, c);
    case Bill(u) => BillKeeps(s, u, f.pc, c);
  }

  lemma ApplyKeeps(s: State, m: Move)
    requires Inv(s) && Enabled(s, m)
    ensures Inv(Apply(s, m)) && Evolves(s.store, Apply(s, m).store)
  {
    var f := s.flows[m.tid];
    if !m.crash {
      NextKeeps(s.store, f, m.choice);
    }
    var t := Apply(s, m);
    forall u | u in t.flows
      ensures FlowInv(t.store, t.flows[u])
    {
      if u != m.tid {
        FlowInvStable(s.store, t.store, s.flows[u]);
      }
    }
  }

  // ---- All interleavings ----

  /** Whatever the interleaving of orders, upserts, deliveries and crashes. */
  lemma {:induction false} AllInterleavings(s: State, ms: seq<Move>)
    requires Inv(s) && Run(s, ms)
    ensures Inv(After(s, ms)) && Evolves(s.store, After(s, ms).store)
    decreases |ms|
  {
    if ms != [] {
      var before := ms[..|ms| - 1];
      AllInterleavings(s, before);
      ApplyKeeps(After(s, before), ms[|ms| - 1]);
      EvolvesTransitive(s.store, After(s, before).store, After(s, ms).store);
    }
  }

  /** In every reachable state, rows of one order id belong to one invoice and one tenant,
      so the webhook resolves the same tenant whichever row its bypass read returns. */
  lemma RoutingIsUnique(s: Store, orderId: string, p: Id, q: Id)
    requires StoreInv(s)
    requires p in s.payments && HasOrder(s.payments[p], orderId)
    requires q in s.payments && HasOrder(s.payments[q], orderId)
    ensures s.payments[p].invoiceId == s.payments[q].invoiceId
    ensures s.payments[p].tenantId == s.payments[q].tenantId
    ensures s.payments[p].amount == s.payments[q].amount
  {
    var a, b := s.payments[p], s.payments[q];
    assert PaymentOk(s, a) && PaymentOk(s, b);
    StubOrderIdInjective(a.invoiceId, s.invoices[a.invoiceId].amountDue - a.amount,
                         b.invoiceId, s.invoices[b.invoiceId].amountDue - b.amount);
  }

  lemma StepAlone(s: Store, f: Flow, c: Choice) returns (t: Store, g: Flow)
    requires StoreInv(s) && FlowInv(s, f) && AloneOk(s, f, c) && !Terminal(f.pc)
    ensures StoreInv(t) && FlowInv(t, g) && Evolves(s, t)
    ensures AloneOk(t, g, c) && Alone(s, f, c) == Alone(t, g, c)
    ensures Rank(g.pc) < Rank(f.pc)
  {
    AloneStep(s, f, c);
    NextKeeps(s, f, c);
    t := Next(s, f, c).0;
    g := Flow(f.req, Next(s, f, c).1);
  }

  /** A flow run alone keeps the invariant too. */
  lemma {:induction false} AloneKeeps(s: Store, f: Flow, c: Choice)
    requires StoreInv(s) && FlowInv(s, f) && AloneOk(s, f, c)
    ensures StoreInv(Alone(s, f, c).0) && Evolves(s, Alone(s, f, c).0)
    decreases Rank(f.pc)
  {
    if !Terminal(f.pc) {
      var t, g := StepAlone(s, f, c);
      AloneKeeps(t, g, c);
      EvolvesTransitive(s, t, Alone(t, g, c).0);
    }
  }
}
