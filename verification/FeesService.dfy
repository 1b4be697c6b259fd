/** The fees service and the webhook as they run: methods that read and update the
    collections, each shown to run its request of the protocol to completion. */
module FeesService {
  import opened Wrappers
  import opened Text
  import opened FeeCalc
  import opened CaptureProtocol
  import opened CaptureInvariants
  import opened CaptureSerial
  import opened Billing

  datatype Applied = Applied(applied: bool, invoiceId: Option<Id>)

  /** What `createPaymentOrder` hands to the client. */
  datatype PaymentOrder = PaymentOrder(paymentId: Id, gatewayOrderId: string, amount: int)

  /** The protocol's name for what a capture returned or threw. */
  function OutcomeOf(r: Result<Applied>): Pc {
    match r
    case Ok(a) => Done(a.applied, a.invoiceId)
    case Err(_) => Threw
  }

  /** A run of `generateInvoices`: whom it bills for what, and when. */
  datatype Job = Job(tenantId: string, plan: Plan, students: seq<Id>, now: int)

  /** The request is the upsert of one of the job's students and installments. */
  ghost predicate IsUpsertOf(req: Request, job: Job) {
    exists x, k :: 0 <= x < |job.students| && 0 <= k < |job.plan.installments|
                && req == Bill(UpsertOf(job.tenantId, job.plan.id, job.students[x], job.plan.installments[k], job.now))
  }

  ghost predicate OnlyUpserts(log: seq<Entry>, job: Job) {
    forall k :: 0 <= k < |log| ==> IsUpsertOf(log[k].req, job)
  }

  /** The run so far is a serial run of upserts, and one more upsert extends it. */
  lemma LogUpsert(s: Store, log: seq<Entry>, job: Job, x: nat, k: nat, u: Upsert, c: Choice, t: Store, created: bool)
    returns (log': seq<Entry>)
    requires Serial(s, log) && OnlyUpserts(log, job)
    requires x < |job.students| && k < |job.plan.installments|
    requires u == UpsertOf(job.tenantId, job.plan.id, job.students[x], job.plan.installments[k], job.now)
    requires Runs(SerialAfter(s, log), Flow(Bill(u), Fresh), c, t, Billed(created))
    ensures Serial(s, log') && SerialAfter(s, log') == t && OnlyUpserts(log', job)
  {
    var e := Entry(0, Bill(u), c, Billed(created));
    SerialAppend(s, log, e);
    log' := log + [e];
    assert IsUpsertOf(e.req, job);
  }

  /** The job has upserted the keys `done`, as the serial run `log`. */
  ghost predicate Reached(s0: Store, t: Store, job: Job, done: set<Key>, created: nat, log: seq<Entry>) {
    && Progress(s0, t, job.tenantId, job.plan, job.now, done, created)
    && OnlyUpserts(log, job) && Serial(s0, log) && SerialAfter(s0, log) == t
  }

  lemma NothingReached(s0: Store, job: Job)
    ensures Reached(s0, s0, job, {}, 0, [])
  {
    NoProgress(s0, job.tenantId, job.plan, job.now);
  }

  /** What one student adds when none of the installments is done yet. */
  lemma NoneOfStudent(before: set<Key>, student: Id, parts: seq<Installment>)
    ensures before + OneStudent(student, parts, 0) == before
  {
  }

  /** With no negative installment the upserts are requests of the protocol like any other. */
  lemma UpsertsAreOk(log: seq<Entry>, job: Job)
    requires OnlyUpserts(log, job)
    requires forall k :: 0 <= k < |job.plan.installments| ==> job.plan.installments[k].amount >= 0
    ensures RequestsOk(log)
  {
    forall i | 0 <= i < |log|
      ensures RequestOk(log[i].req)
    {
      assert IsUpsertOf(log[i].req, job);
    }
  }

  /** So a run keeps the invariant of serial runs, and takes nothing back. */
  lemma JobKeeps(s: Store, t: Store, log: seq<Entry>, job: Job)
    requires SerialInv(s) && Serial(s, log) && SerialAfter(s, log) == t && OnlyUpserts(log, job)
    requires forall k :: 0 <= k < |job.plan.installments| ==> job.plan.installments[k].amount >= 0
    ensures SerialInv(t) && Grows(s, t)
  {
    UpsertsAreOk(log, job);
    SerialKeeps(s, log);
  }

  class FeesService {
    var payments: map<Id, Payment>
    var invoices: map<Id, Invoice>
    var nextPaymentId: Id
    var nextInvoiceId: Id

    function View(): Store
      reads this
    {
      Store(payments, invoices)
    }

    predicate Valid()
      reads this
    {
      && (forall p :: p in payments ==> p < nextPaymentId)
      && (forall i :: i in invoices ==> i < nextInvoiceId)
    }

    constructor ()
      ensures Valid() && View() == Store(map[], map[])
    {
      payments, invoices := map[], map[];
      nextPaymentId, nextInvoiceId := 0, 0;
    }

    // ---- Saves ----

    /** `payment.save()`: false is the duplicate key error of the index on gatewayPaymentId. */
    method ClaimRow(pid: Id, payment: Payment, claimed: Payment, payId: string) returns (ok: bool)
      requires pid in payments
      modifies this`payments
      ensures ok <==> !TakenElsewhere(old(View()), pid, payId)
      ensures View() == if ok then SavePayment(old(View()), pid, payment, claimed) else old(View())
    {
      ok := !(exists q :: q in payments && q != pid && payments[q].gatewayPaymentId == Some(payId));
      if ok {
        payments := payments[pid := SavedPayment(payments[pid], payment, claimed)];
      }
    }

    /** The part of a capture after its claim: credit the invoice, store the receipt. */
    method CreditInvoice(pid: Id, payment: Payment, d: Delivery, ghost c: Choice) returns (r: Result<Applied>)
      requires pid in payments
      modifies this`payments, this`invoices
      ensures Runs(old(View()), Flow(Capture(d), Claimed(pid, payment)), c, View(), OutcomeOf(r))
      ensures r.Err? ==> r.error == NegativePayment
      ensures payments.Keys == old(payments.Keys) && invoices.Keys == old(invoices.Keys)
    {
      ghost var s0, f0 := View(), Flow(Capture(d), Claimed(pid, payment));
      if payment.invoiceId in invoices && invoices[payment.invoiceId].tenantId == payment.tenantId {
        var invoice := invoices[payment.invoiceId];
        var paid := ApplyPayment(invoice.amountDue, invoice.amountPaid, d.amount);
        if paid.Err? {
          RunsLast(s0, f0, c, s0, Threw);
          return Err(paid.error);
        }
        var doc := invoice.(amountPaid := paid.value,
                            status := ComputeInvoiceStatus(invoice.amountDue, paid.value, invoice.dueDate, d.now));
        ghost var f1 := Flow(Capture(d), Loaded(pid, payment, invoice));
        if d.receipt.Some? {
          doc := doc.(receiptUrl := d.receipt);
          var stamped := payment.(receiptUrl := d.receipt);
          payments := payments[pid := SavedPayment(payments[pid], payment, stamped)];
          ghost var s1, f2 := View(), Flow(Capture(d), Stamped(pid, stamped, invoice));
          invoices := invoices[payment.invoiceId := SavedInvoice(invoices[payment.invoiceId], invoice, doc)];
          RunsLast(s1, f2, c, View(), Done(true, Some(payment.invoiceId)));
          RunsBack(s0, f1, c, s1, f2.pc, View(), Done(true, Some(payment.invoiceId)));
        } else {
          invoices := invoices[payment.invoiceId := SavedInvoice(invoices[payment.invoiceId], invoice, doc)];
          RunsLast(s0, f1, c, View(), Done(true, Some(payment.invoiceId)));
        }
        RunsBack(s0, f0, c, s0, f1.pc, View(), Done(true, Some(payment.invoiceId)));
      } else {
        RunsLast(s0, f0, c, s0, Done(true, Some(payment.invoiceId)));
      }
      r := Ok(Applied(true, Some(payment.invoiceId)));
    }

    /** The part of a capture from the CREATED row it read. */
    method ClaimAndCredit(pid: Id, payment: Payment, d: Delivery, ghost c: Choice) returns (r: Result<Applied>)
      requires pid in payments
      modifies this`payments, this`invoices
      ensures Runs(old(View()), Flow(Capture(d), Holding(pid, payment)), c, View(), OutcomeOf(r))
      ensures r.Err? ==> r.error == NegativePayment
      ensures payments.Keys == old(payments.Keys) && invoices.Keys == old(invoices.Keys)
    {
      ghost var s0, f0 := View(), Flow(Capture(d), Holding(pid, payment));
      var claimed := payment.(gatewayPaymentId := Some(d.payId), gatewaySignature := d.signature,
                              status := Captured, paidAt := Some(d.paidAt));
      var ok := ClaimRow(pid, payment, claimed, d.payId);
      if ok {
        ghost var s1 := View();
        r := CreditInvoice(pid, claimed, d, c);
        RunsBack(s0, f0, c, s1, Claimed(pid, claimed), View(), OutcomeOf(r));
      } else {
        r := Ok(Applied(false, Some(payment.invoiceId)));
        RunsLast(s0, f0, c, s0, OutcomeOf(r));
      }
    }

    /** `applyCapturedPayment` in the context of `tenantId`; `pid` and `owner` are what the
        webhook's bypass read found. */
    method ApplyCapturedPayment(tenantId: string, d: Delivery, ghost pid: Id, ghost owner: Payment)
      returns (r: Result<Applied>, ghost c: Choice)
      requires owner.tenantId == tenantId
      modifies this`payments, this`invoices
      ensures c.resolved == Some(pid)
      ensures Runs(old(View()), Flow(Capture(d), Resolved(pid, owner)), c, View(), OutcomeOf(r))
      ensures r.Err? ==> r.error == NegativePayment
      ensures payments.Keys == old(payments.Keys) && invoices.Keys == old(invoices.Keys)
      // Which deliveries are refused, and the invoice the answer names.
      ensures Answered(old(View()), tenantId, d, c, View(), OutcomeOf(r))
      ensures r.Ok? && r.value.invoiceId.None? ==> c.existing.None? && c.pending.None?
      ensures r.Ok? && r.value.invoiceId.Some? ==>
                var p := if c.existing.Some? then c.existing else c.pending;
                && p.Some? && p.value in old(payments)
                && r.value.invoiceId.value == old(payments)[p.value].invoiceId
    {
      c := Choice(Some(pid), None, None, None, 0);
      ghost var s0, req := View(), Capture(d);
      if e :| e in payments && HasPayId(payments[e], tenantId, d.payId) {
        c := c.(existing := Some(e));
        r := Ok(Applied(false, Some(payments[e].invoiceId)));
        RunsLast(s0, Flow(req, Resolved(pid, owner)), c, s0, OutcomeOf(r));
        CaptureAnswers(s0, d, pid, owner, c, s0, OutcomeOf(r));
        return;
      }
      if p :| p in payments && IsOpen(payments[p], tenantId, d.orderId) {
        c := c.(pending := Some(p));
        ghost var payment := payments[p];
        r := ClaimAndCredit(p, payments[p], d, c);
        RunsBack(s0, Flow(req, Unseen(pid, owner)), c, s0, Holding(p, payment), View(), OutcomeOf(r));
      } else {
        r := Ok(Applied(false, None));
        RunsLast(s0, Flow(req, Unseen(pid, owner)), c, s0, OutcomeOf(r));
      }
      RunsBack(s0, Flow(req, Resolved(pid, owner)), c, s0, Unseen(pid, owner), View(), OutcomeOf(r));
      CaptureAnswers(s0, d, pid, owner, c, View(), OutcomeOf(r));
    }

    // ---- Orders ----

    method GetInvoice(tenantId: string, id: Id) returns (r: Result<Invoice>)
      ensures r == if id in invoices && invoices[id].tenantId == tenantId then Ok(invoices[id])
                   else Err(InvoiceNotFound)
    {
      if id in invoices && invoices[id].tenantId == tenantId {
        r := Ok(invoices[id]);
      } else {
        r := Err(InvoiceNotFound);
      }
    }

    /** `createPaymentOrder` in stub mode. */
    method CreatePaymentOrder(tenantId: string, invoiceId: Id) returns (r: Result<PaymentOrder>, ghost c: Choice)
      requires Valid()
      modifies this`payments, this`nextPaymentId
      ensures Valid()
      ensures Runs(old(View()), Flow(Order(tenantId, invoiceId), Fresh), c, View(),
                   if r.Ok? then Ordered(r.value.paymentId) else Refused)
      ensures r == Err(InvoiceNotFound) <==> !(invoiceId in invoices && invoices[invoiceId].tenantId == tenantId)
      ensures r == Err(AlreadyPaid) <==>
                invoiceId in invoices && invoices[invoiceId].tenantId == tenantId && invoices[invoiceId].status == Paid
      ensures r.Err? ==> View() == old(View())
      // The row it adds and the answer ask for what the invoice still owes, under one order id.
      ensures r.Ok? ==>
                && invoiceId in invoices && r.value.paymentId !in old(payments)
                && var inv := invoices[invoiceId];
                && r.value.amount == inv.amountDue - inv.amountPaid
                && r.value.gatewayOrderId == "order_stub_" + (Numeral(invoiceId) + "_" + ShowRupees(inv.amountPaid))
                && invoices == old(invoices)
                && payments == old(payments)[r.value.paymentId :=
                     Payment(tenantId, invoiceId, inv.studentId, r.value.amount, r.value.gatewayOrderId,
                             None, None, Created, None, None)]
    {
      c := Choice(None, None, None, None, nextPaymentId);
      ghost var s0, req := View(), Order(tenantId, invoiceId);
      var invoice := GetInvoice(tenantId, invoiceId);
      if invoice.Err? || invoice.value.status == Paid {
        RunsLast(s0, Flow(req, Fresh), c, s0, Refused);
        return Err(if invoice.Err? then invoice.error else AlreadyPaid), c;
      }
      var inv := invoice.value;
      var amount := inv.amountDue - inv.amountPaid;
      var orderId := StubOrderId(invoiceId, inv.amountPaid);
      var payment := Payment(inv.tenantId, invoiceId, inv.studentId, amount, orderId,
                             None, None, Created, None, None);
      payments := payments[nextPaymentId := payment];
      r := Ok(PaymentOrder(nextPaymentId, orderId, amount));
      nextPaymentId := nextPaymentId + 1;
      RunsLast(s0, Flow(req, Quoted(inv)), c, View(), Ordered(r.value.paymentId));
      RunsBack(s0, Flow(req, Fresh), c, s0, Quoted(inv), View(), Ordered(r.value.paymentId));
    }

    // ---- Invoices ----

    /** `updateOne(key, { $setOnInsert }, { upsert: true })`. */
    method UpsertInvoice(u: Upsert) returns (created: bool, ghost c: Choice)
      requires Valid()
      modifies this`invoices, this`nextInvoiceId
      ensures Valid()
      ensures Runs(old(View()), Flow(Bill(u), Fresh), c, View(), Billed(created))
      ensures created <==> !HasKey(old(invoices), u)
      ensures invoices == if created then old(invoices)[old(nextInvoiceId) := NewInvoice(u)] else old(invoices)
    {
      ghost var s0 := View();
      if i :| i in invoices && SameKey(invoices[i], NewInvoice(u)) {
        c, created := Choice(None, None, None, Some(i), 0), false;
      } else {
        c, created := Choice(None, None, None, None, nextInvoiceId), true;
        invoices := invoices[nextInvoiceId := NewInvoice(u)];
        nextInvoiceId := nextInvoiceId + 1;
      }
      RunsLast(s0, Flow(Bill(u), Fresh), c, View(), Billed(created));
    }

    /** The body of the inner loop of `generateInvoices`, for student x and installment k. */
    method BillInstallment(job: Job, x: nat, k: nat,
                           ghost s0: Store, ghost before: set<Key>, created: nat, ghost log: seq<Entry>)
      returns (created': nat, ghost log': seq<Entry>)
      requires Valid() && x < |job.students| && k < |job.plan.installments|
      requires Reached(s0, View(), job, before + OneStudent(job.students[x], job.plan.installments, k),
                       created, log)
      modifies this`invoices, this`nextInvoiceId
      ensures Valid()
      ensures Reached(s0, View(), job, before + OneStudent(job.students[x], job.plan.installments, k + 1),
                      created', log')
    {
      var student, part := job.students[x], job.plan.installments[k];
      var u := UpsertOf(job.tenantId, job.plan.id, student, part, job.now);
      ghost var a, newId, done := View(), nextInvoiceId, before + OneStudent(student, job.plan.installments, k);
      ghost var c;
      var isNew;
      isNew, c := UpsertInvoice(u);
      created' := created;
      if isNew {
        created' := created + 1;
      }
      UpsertStep(s0, a, View(), job.tenantId, job.plan, job.now, done, created, student, k, u, isNew, newId);
      OneStudentSnoc(before, student, job.plan.installments, k);
      log' := LogUpsert(s0, log, job, x, k, u, c, View(), isNew);
    }

    /** The inner loop of `generateInvoices`. */
    method BillStudent(job: Job, x: nat, ghost s0: Store, ghost before: set<Key>, count: nat, ghost log: seq<Entry>)
      returns (created: nat, ghost log': seq<Entry>)
      requires Valid() && x < |job.students| && Reached(s0, View(), job, before, count, log)
      modifies this`invoices, this`nextInvoiceId
      ensures Valid()
      ensures Reached(s0, View(), job,
                      before + OneStudent(job.students[x], job.plan.installments, |job.plan.installments|),
                      created, log')
    {
      created, log' := count, log;
      ghost var student, parts, t, done := job.students[x], job.plan.installments, View(), before;
      NoneOfStudent(before, student, parts);
      for k := 0 to |job.plan.installments|
        invariant Valid() && t == View() && done == before + OneStudent(student, parts, k)
        invariant Reached(s0, t, job, done, created, log')
      {
        created, log' := BillInstallment(job, x, k, s0, before, created, log');
        t, done := View(), before + OneStudent(student, parts, k + 1);
      }
    }

    /** The nested loops of `generateInvoices`. */
    method BillAll(job: Job) returns (created: nat, ghost log: seq<Entry>)
      requires Valid()
      modifies this`invoices, this`nextInvoiceId
      ensures Valid()
      ensures Reached(old(View()), View(), job, Wanted(job.students, job.plan.installments), created, log)
    {
      created, log := 0, [];
      ghost var s0, done := View(), {};
      NothingReached(s0, job);
      for x := 0 to |job.students|
        invariant Valid() && done == Wanted(job.students[..x], job.plan.installments)
        invariant Reached(s0, View(), job, done, created, log)
      {
        created, log := BillStudent(job, x, s0, done, created, log);
        WantedSnoc(job.students, job.plan.installments, x);
        done := done + OneStudent(job.students[x], job.plan.installments, |job.plan.installments|);
      }
      assert job.students[..|job.students|] == job.students;
    }

    /** `generateInvoices`: `plan` is what the lookup found and `enrolled` the students of
        its batch. The run is a serial run of the upserts of its students and installments. */
    method GenerateInvoices(tenantId: string, plan: Option<Plan>, listed: seq<Id>, enrolled: seq<Id>, now: int)
      returns (r: Result<nat>, ghost log: seq<Entry>)
      requires Valid()
      modifies this`invoices, this`nextInvoiceId
      ensures Valid()
      ensures r == Err(PlanNotFound) <==> plan == None
      ensures r == Err(NoInstallments) <==> plan.Some? && plan.value.installments == []
      ensures r == Err(NoBatch) <==>
                plan.Some? && plan.value.installments != [] && listed == [] && plan.value.batchId == None
      ensures r.Err? ==> log == [] && View() == old(View())
      ensures r.Ok? ==>
                && plan.Some?
                && var students := if listed != [] then listed else enrolled;
                && Generated(old(View()), View(), tenantId, plan.value, students, now, r.value)
                && OnlyUpserts(log, Job(tenantId, plan.value, students, now))
      // Every new row is an installment of a listed student, field by field.
      ensures r.Ok? ==>
                forall i :: i in invoices && i !in old(invoices) ==>
                  BillsInstallment(invoices[i], tenantId, plan.value, if listed != [] then listed else enrolled, now)
      ensures Serial(old(View()), log) && SerialAfter(old(View()), log) == View()
    {
      log := [];
      if plan == None {
        return Err(PlanNotFound), log;
      }
      if plan.value.installments == [] {
        return Err(NoInstallments), log;
      }
      var students := listed;
      if students == [] {
        if plan.value.batchId == None {
          return Err(NoBatch), log;
        }
        students := enrolled;
      }
      var created;
      created, log := BillAll(Job(tenantId, plan.value, students, now));
      r := Ok(created);
      NewRowFields(old(View()), View(), tenantId, plan.value, students, now, created);
    }
  }
}
