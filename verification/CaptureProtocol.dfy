/** Payment orders, webhook captures and invoice upserts as programs over one shared
    store. A flow is one request; each step of a flow is one database operation,
    and what an earlier read returned is kept in the flow as a snapshot.
    Money is in whole paisa: MoneyRounding shows the doubles agree. */
module CaptureProtocol {
  import opened Wrappers
  import opened Text
  import opened FeeCalc

  type Id = nat

  datatype PaymentStatus = Created | Captured | Failed

  datatype Payment = Payment(
    tenantId: string, invoiceId: Id, studentId: Id, amount: int, gatewayOrderId: string,
    gatewayPaymentId: Option<string>, gatewaySignature: Option<string>,
    status: PaymentStatus, paidAt: Option<int>, receiptUrl: Option<string>)

  datatype Invoice = Invoice(
    tenantId: string, studentId: Id, feePlanId: Id, title: string,
    amountDue: int, amountPaid: int, dueDate: int, status: InvoiceStatus, receiptUrl: Option<string>)

  datatype Store = Store(payments: map<Id, Payment>, invoices: map<Id, Invoice>)

  // ---- Requests ----

  /** A verified `payment.captured` event. `paidAt` and `now` are the clock readings the
      flow takes, and `receipt` is what `receipts.generate` returns. */
  datatype Delivery = Delivery(orderId: string, payId: string, amount: int,
                               signature: Option<string>, paidAt: int, now: int, receipt: Option<string>)

  /** The upsert of one invoice, keyed by tenant, student, plan and label. */
  datatype Upsert = Upsert(tenantId: string, studentId: Id, feePlanId: Id, title: string,
                           amountDue: int, dueDate: int, now: int)

  datatype Request =
    | Capture(d: Delivery)
    | Order(tenantId: string, invoiceId: Id)
    | Bill(u: Upsert)

  /** Where a flow is, and the documents it holds. */
  datatype Pc =
    | Fresh
    // Capture. `row` is the payment document read last, `pid` its _id.
    | Resolved(pid: Id, row: Payment)               // tenant found by the bypass read
    | Unseen(pid: Id, row: Payment)                 // no row carries this payment id in the tenant
    | Holding(pid: Id, row: Payment)                // a CREATED row was read
    | Claimed(pid: Id, row: Payment)                // the payment id was saved on it
    | Loaded(pid: Id, row: Payment, inv: Invoice)   // the invoice was read
    | Stamped(pid: Id, row: Payment, inv: Invoice)  // the receipt was saved on the payment
    | Done(applied: bool, about: Option<Id>)        // the value returned
    | Threw                                         // applyPayment rejected a negative amount
    // Order.
    | Quoted(inv: Invoice)
    | Ordered(paymentId: Id)
    | Refused
    // Bill.
    | Billed(created: bool)
    // The process died; `at` is where.
    | Crashed(at: Pc)

  datatype Flow = Flow(req: Request, pc: Pc)

  /** How the database answers a flow's queries, and the new _id of its insert. */
  datatype Choice = Choice(resolved: Option<Id>, existing: Option<Id>, pending: Option<Id>,
                           billed: Option<Id>, newId: Id)

  // ---- Queries ----

  predicate HasOrder(p: Payment, orderId: string) {
    p.gatewayOrderId == orderId
  }

  predicate HasPayId(p: Payment, tenantId: string, payId: string) {
    p.tenantId == tenantId && p.gatewayPaymentId == Some(payId)
  }

  predicate IsOpen(p: Payment, tenantId: string, orderId: string) {
    p.tenantId == tenantId && p.gatewayOrderId == orderId && p.status == Created
  }

  predicate SameKey(a: Invoice, b: Invoice) {
    a.tenantId == b.tenantId && a.studentId == b.studentId && a.feePlanId == b.feePlanId && a.title == b.title
  }

  /** `findOne({ gatewayOrderId })` under bypass may return any matching row. */
  ghost predicate FindsOrder(s: Store, orderId: string, r: Option<Id>) {
    match r
    case None => forall p :: p in s.payments ==> !HasOrder(s.payments[p], orderId)
    case Some(p) => p in s.payments && HasOrder(s.payments[p], orderId)
  }

  ghost predicate FindsPayId(s: Store, tenantId: string, payId: string, r: Option<Id>) {
    match r
    case None => forall p :: p in s.payments ==> !HasPayId(s.payments[p], tenantId, payId)
    case Some(p) => p in s.payments && HasPayId(s.payments[p], tenantId, payId)
  }

  ghost predicate FindsOpen(s: Store, tenantId: string, orderId: string, r: Option<Id>) {
    match r
    case None => forall p :: p in s.payments ==> !IsOpen(s.payments[p], tenantId, orderId)
    case Some(p) => p in s.payments && IsOpen(s.payments[p], tenantId, orderId)
  }

  ghost predicate FindsBill(s: Store, row: Invoice, r: Option<Id>) {
    match r
    case None => forall i :: i in s.invoices ==> !SameKey(s.invoices[i], row)
    case Some(i) => i in s.invoices && SameKey(s.invoices[i], row)
  }

  /** The global unique index: another row already carries the payment id. */
  predicate TakenElsewhere(s: Store, pid: Id, payId: string) {
    exists q :: q in s.payments && q != pid && s.payments[q].gatewayPaymentId == Some(payId)
  }

  // ---- Saves: only the fields changed since the document was read are sent ----

  function SavedPayment(current: Payment, read: Payment, doc: Payment): Payment {
    current.(
      gatewayPaymentId :=
        if doc.gatewayPaymentId != read.gatewayPaymentId then doc.gatewayPaymentId else current.gatewayPaymentId,
      gatewaySignature :=
        if doc.gatewaySignature != read.gatewaySignature then doc.gatewaySignature else current.gatewaySignature,
      status := if doc.status != read.status then doc.status else current.status,
      paidAt := if doc.paidAt != read.paidAt then doc.paidAt else current.paidAt,
      receiptUrl := if doc.receiptUrl != read.receiptUrl then doc.receiptUrl else current.receiptUrl)
  }

  function SavedInvoice(current: Invoice, read: Invoice, doc: Invoice): Invoice {
    current.(
      amountPaid := if doc.amountPaid != read.amountPaid then doc.amountPaid else current.amountPaid,
      status := if doc.status != read.status then doc.status else current.status,
      receiptUrl := if doc.receiptUrl != read.receiptUrl then doc.receiptUrl else current.receiptUrl)
  }

  /** The document after the claim's assignments. */
  function ClaimedDoc(row: Payment, d: Delivery): Payment {
    row.(gatewayPaymentId := Some(d.payId), gatewaySignature := d.signature,
         status := Captured, paidAt := Some(d.paidAt))
  }

  /** The document after the receipt's assignment. */
  function StampedDoc(row: Payment, d: Delivery): Payment {
    row.(receiptUrl := d.receipt)
  }

  /** The invoice document after the credit's assignments. */
  function CreditedDoc(inv: Invoice, d: Delivery): Invoice {
    var paid := Min(inv.amountDue, inv.amountPaid + d.amount);
    inv.(amountPaid := paid,
         status := ComputeInvoiceStatus(inv.amountDue, paid, inv.dueDate, d.now),
         receiptUrl := if d.receipt.Some? then d.receipt else inv.receiptUrl)
  }

  function SavePayment(s: Store, pid: Id, read: Payment, doc: Payment): Store {
    if pid in s.payments then
      s.(payments := s.payments[pid := SavedPayment(s.payments[pid], read, doc)])
    else s
  }

  function SaveInvoice(s: Store, iid: Id, read: Invoice, doc: Invoice): Store {
    if iid in s.invoices then
      s.(invoices := s.invoices[iid := SavedInvoice(s.invoices[iid], read, doc)])
    else s
  }

  /** The document the upsert's `$setOnInsert` creates. */
  function NewInvoice(u: Upsert): Invoice {
    Invoice(u.tenantId, u.studentId, u.feePlanId, u.title, u.amountDue, 0, u.dueDate,
            ComputeInvoiceStatus(u.amountDue, 0, u.dueDate, u.now), None)
  }

  /** The Payment `createPaymentOrder` persists. */
  function NewPayment(iid: Id, inv: Invoice): Payment
  {
    Payment(inv.tenantId, iid, inv.studentId, inv.amountDue - inv.amountPaid,
            StubOrderId(iid, inv.amountPaid), None, None, Created, None, None)
  }

  // ---- Steps ----

  predicate Terminal(pc: Pc) {
    pc.Done? || pc.Threw? || pc.Ordered? || pc.Refused? || pc.Billed? || pc.Crashed?
  }

  /** The query the flow issues next may be answered as `c` says. */
  ghost predicate Answers(s: Store, f: Flow, c: Choice) {
    match (f.req, f.pc)
    case (Capture(d), Fresh) => FindsOrder(s, d.orderId, c.resolved)
    case (Capture(d), Resolved(_, row)) => FindsPayId(s, row.tenantId, d.payId, c.existing)
    case (Capture(d), Unseen(_, row)) => FindsOpen(s, row.tenantId, d.orderId, c.pending)
    case (Order(_, _), Quoted(_)) => c.newId !in s.payments
    case (Bill(u), Fresh) => FindsBill(s, NewInvoice(u), c.billed) && (c.billed.None? ==> c.newId !in s.invoices)
    case _ => true
  }

  ghost function Next(s: Store, f: Flow, c: Choice): (r: (Store, Pc))
    requires Answers(s, f, c)
  {
    match f.req
    case Capture(d) => NextCapture(s, d, f.pc, c)
    case Order(tenantId, iid) => NextOrder(s, tenantId, iid, f.pc, c)
    case Bill(u) => NextBill(s, u, f.pc, c)
  }

  ghost function NextCapture(s: Store, d: Delivery, pc: Pc, c: Choice): (Store, Pc)
    requires Answers(s, Flow(Capture(d), pc), c)
  {
    match pc
    case Fresh =>
      (match c.resolved
       case None => (s, Done(false, None))
       case Some(p) => (s, Resolved(p, s.payments[p])))
    case Resolved(pid, row) =>
      (match c.existing
       case None => (s, Unseen(pid, row))
       case Some(p) => (s, Done(false, Some(s.payments[p].invoiceId))))
    case Unseen(_, _) =>
      (match c.pending
       case None => (s, Done(false, None))
       case Some(p) => (s, Holding(p, s.payments[p])))
    case Holding(pid, row) =>
      if TakenElsewhere(s, pid, d.payId) then (s, Done(false, Some(row.invoiceId)))
      else (SavePayment(s, pid, row, ClaimedDoc(row, d)), Claimed(pid, ClaimedDoc(row, d)))
    case Claimed(pid, row) =>
      if row.invoiceId in s.invoices && s.invoices[row.invoiceId].tenantId == row.tenantId then
        if d.amount < 0 then (s, Threw) else (s, Loaded(pid, row, s.invoices[row.invoiceId]))
      else (s, Done(true, Some(row.invoiceId)))
    case Loaded(pid, row, inv) =>
      if d.receipt.Some? then (SavePayment(s, pid, row, StampedDoc(row, d)), Stamped(pid, StampedDoc(row, d), inv))
      else (SaveInvoice(s, row.invoiceId, inv, CreditedDoc(inv, d)), Done(true, Some(row.invoiceId)))
    case Stamped(_, row, inv) =>
      (SaveInvoice(s, row.invoiceId, inv, CreditedDoc(inv, d)), Done(true, Some(row.invoiceId)))
    case _ => (s, pc)
  }

  ghost function NextOrder(s: Store, tenantId: string, iid: Id, pc: Pc, c: Choice): (Store, Pc) {
    match pc
    case Fresh =>
      if iid in s.invoices && s.invoices[iid].tenantId == tenantId && s.invoices[iid].status != Paid
      then (s, Quoted(s.invoices[iid])) else (s, Refused)
    case Quoted(inv) =>
      (s.(payments := s.payments[c.newId := NewPayment(iid, inv)]), Ordered(c.newId))
    case _ => (s, pc)
  }

  ghost function NextBill(s: Store, u: Upsert, pc: Pc, c: Choice): (Store, Pc) {
    match pc
    case Fresh =>
      if c.billed.Some? then (s, Billed(false))
      else (s.(invoices := s.invoices[c.newId := NewInvoice(u)]), Billed(true))
    case _ => (s, pc)
  }

  // ---- Interleaved runs ----

  datatype State = State(store: Store, flows: map<nat, Flow>)

  /** One step of flow `tid`, or its crash. */
  datatype Move = Move(tid: nat, choice: Choice, crash: bool)

  ghost predicate Enabled(s: State, m: Move) {
    && m.tid in s.flows
    && !Terminal(s.flows[m.tid].pc)
    && (m.crash || Answers(s.store, s.flows[m.tid], m.choice))
  }

  ghost function Apply(s: State, m: Move): (r: State)
    requires Enabled(s, m)
  {
    var f := s.flows[m.tid];
    if m.crash then State(s.store, s.flows[m.tid := Flow(f.req, Crashed(f.pc))])
    else
      var (store, pc) := Next(s.store, f, m.choice);
      State(store, s.flows[m.tid := Flow(f.req, pc)])
  }

  /** The states of a run: `ms` is a schedule of moves, each enabled when it is taken. */
  ghost predicate Run(s: State, ms: seq<Move>)
    decreases |ms|, 0
  {
    ms == [] || (Run(s, ms[..|ms| - 1]) && Enabled(After(s, ms[..|ms| - 1]), ms[|ms| - 1]))
  }

  ghost function After(s: State, ms: seq<Move>): State
    requires Run(s, ms)
    decreases |ms|, 1
  {
    if ms == [] then s else Apply(After(s, ms[..|ms| - 1]), ms[|ms| - 1])
  }

  /** One more enabled move extends a run. */
  lemma Take(s0: State, ms: seq<Move>, s: State, m: Move) returns (ms': seq<Move>)
    requires Run(s0, ms) && After(s0, ms) == s && Enabled(s, m)
    ensures ms' == ms + [m] && Run(s0, ms') && After(s0, ms') == Apply(s, m)
  {
    ms' := ms + [m];
    assert ms'[..|ms'| - 1] == ms;
  }

  // ---- Serial runs: each request runs alone, to completion ----

  function Rank(pc: Pc): nat {
    match pc
    case Fresh => 7
    case Resolved(_, _) => 6
    case Unseen(_, _) => 5
    case Holding(_, _) => 4
    case Claimed(_, _) => 3
    case Loaded(_, _, _) => 2
    case Stamped(_, _, _) => 1
    case Quoted(_) => 1
    case _ => 0
  }

  predicate Fits(f: Flow) {
    match f.pc
    case Resolved(_, _) => f.req.Capture?
    case Unseen(_, _) => f.req.Capture?
    case Holding(_, _) => f.req.Capture?
    case Claimed(_, _) => f.req.Capture?
    case Loaded(_, _, _) => f.req.Capture?
    case Stamped(_, _, _) => f.req.Capture?
    case Quoted(_) => f.req.Order?
    case _ => true
  }

  ghost predicate AloneOk(s: Store, f: Flow, c: Choice)
    requires Fits(f)
    decreases Rank(f.pc)
  {
    Terminal(f.pc) ||
    (Answers(s, f, c) && var (s', pc') := Next(s, f, c); AloneOk(s', Flow(f.req, pc'), c))
  }

  /** The flow run to completion with nothing in between. */
  ghost function Alone(s: Store, f: Flow, c: Choice): (r: (Store, Pc))
    requires Fits(f) && AloneOk(s, f, c)
    ensures Terminal(r.1)
    decreases Rank(f.pc)
  {
    if Terminal(f.pc) then (s, f.pc)
    else
      var (s', pc') := Next(s, f, c);
      Alone(s', Flow(f.req, pc'), c)
  }

  lemma AloneStep(s: Store, f: Flow, c: Choice)
    requires Fits(f) && AloneOk(s, f, c) && !Terminal(f.pc)
    ensures Answers(s, f, c)
    ensures var (t, pc) := Next(s, f, c);
            && AloneOk(t, Flow(f.req, pc), c)
            && Alone(s, f, c) == Alone(t, Flow(f.req, pc), c)
            && Rank(pc) < Rank(f.pc)
  {
  }

  /** One entry of a serial log: a request, the answers it got, and how it ended. */
  datatype Entry = Entry(tid: nat, req: Request, choice: Choice, outcome: Pc)

  ghost predicate Serial(s: Store, log: seq<Entry>)
    decreases |log|, 0
  {
    log == [] ||
    var e := log[|log| - 1];
    && Serial(s, log[..|log| - 1])
    && AloneOk(SerialAfter(s, log[..|log| - 1]), Flow(e.req, Fresh), e.choice)
    && Alone(SerialAfter(s, log[..|log| - 1]), Flow(e.req, Fresh), e.choice).1 == e.outcome
  }

  ghost function SerialAfter(s: Store, log: seq<Entry>): Store
    requires Serial(s, log)
    decreases |log|, 1
  {
    if log == [] then s
    else
      var e := log[|log| - 1];
      Alone(SerialAfter(s, log[..|log| - 1]), Flow(e.req, Fresh), e.choice).0
  }
}
