/** Serial runs: what one request does when nothing runs in between, and what a
    whole log of them adds up to. */
module CaptureSerial {
  import opened Wrappers
  import opened FeeCalc
  import opened CaptureProtocol
  import opened CaptureInvariants

  // ---- One request alone ----

  ghost predicate PayIdUsed(s: Store, payId: string) {
    exists p :: p in s.payments && s.payments[p].gatewayPaymentId == Some(payId)
  }

  /** Some row of the order is still CREATED. */
  ghost predicate HasOpenRow(s: Store, orderId: string) {
    exists p :: p in s.payments && HasOrder(s.payments[p], orderId) && s.payments[p].status == Created
  }

  /** The payment row a capture leaves behind. */
  function CapturedRow(row: Payment, d: Delivery): Payment {
    if d.amount >= 0 && d.receipt.Some? then StampedDoc(ClaimedDoc(row, d), d) else ClaimedDoc(row, d)
  }

  /** The whole effect of a capture that claims row p. */
  function CaptureEffect(s: Store, d: Delivery, p: Id): Store
    requires p in s.payments && s.payments[p].invoiceId in s.invoices
  {
    var iid := s.payments[p].invoiceId;
    Store(s.payments[p := CapturedRow(s.payments[p], d)],
          if d.amount < 0 then s.invoices else s.invoices[iid := CreditedDoc(s.invoices[iid], d)])
  }

  function CaptureOutcome(s: Store, d: Delivery, p: Id): Pc
    requires p in s.payments
  {
    if d.amount < 0 then Threw else Done(true, Some(s.payments[p].invoiceId))
  }

  /** A save of a document read from the current row stores the document. */
  lemma SavedUnread(row: Payment, d: Delivery)
    ensures SavedPayment(row, row, ClaimedDoc(row, d)) == ClaimedDoc(row, d)
    ensures SavedPayment(row, row, StampedDoc(row, d)) == StampedDoc(row, d)
  {
  }

  lemma SavedUnreadInvoice(inv: Invoice, d: Delivery)
    ensures SavedInvoice(inv, inv, CreditedDoc(inv, d)) == CreditedDoc(inv, d)
  {
  }

  /** However stale the snapshots, a save of an unchanged document changes nothing, and the saves
      of the protocol write their own fields only: what the claim, the receipt and the credit
      each wrote is what it assigned, and no other field moves. */
  lemma StaleSaves(row: Payment, readRow: Payment, inv: Invoice, read: Invoice, d: Delivery)
    ensures SavedPayment(row, readRow, readRow) == row && SavedInvoice(inv, read, read) == inv
    ensures SavedPayment(row, readRow, StampedDoc(readRow, d))
         == row.(receiptUrl := if readRow.receiptUrl == d.receipt then row.receiptUrl else d.receipt)
    ensures readRow.status == Created && readRow.gatewayPaymentId == None ==>
              var saved := SavedPayment(row, readRow, ClaimedDoc(readRow, d));
              && saved.gatewayPaymentId == Some(d.payId) && saved.status == Captured
              && saved == row.(gatewayPaymentId := Some(d.payId), gatewaySignature := saved.gatewaySignature,
                               status := Captured, paidAt := saved.paidAt)
    ensures var saved := SavedInvoice(inv, read, CreditedDoc(read, d));
            && SameInvoice(saved, inv) && (d.receipt == None ==> saved.receiptUrl == inv.receiptUrl)
            && saved.amountPaid in {inv.amountPaid, Min(read.amountDue, read.amountPaid + d.amount)}
  {
  }

  /** From store s, flow f runs to completion alone, and ends in store t with `out`. */
  ghost predicate Runs(s: Store, f: Flow, c: Choice, t: Store, out: Pc) {
    Fits(f) && AloneOk(s, f, c) && Alone(s, f, c) == (t, out)
  }

  lemma RunsBack(s: Store, f: Flow, c: Choice, s1: Store, pc1: Pc, t: Store, out: Pc)
    requires Fits(f) && !Terminal(f.pc) && Answers(s, f, c) && Next(s, f, c) == (s1, pc1)
    requires Runs(s1, Flow(f.req, pc1), c, t, out)
    ensures Runs(s, f, c, t, out)
  {
  }

  lemma RunsLast(s: Store, f: Flow, c: Choice, t: Store, out: Pc)
    requires Fits(f) && !Terminal(f.pc) && Answers(s, f, c) && Next(s, f, c) == (t, out) && Terminal(out)
    ensures Runs(s, f, c, t, out)
  {
    assert Runs(t, Flow(f.req, out), c, t, out);
  }

  lemma RunsFromLoaded(s: Store, d: Delivery, pid: Id, row: Payment, inv: Invoice, c: Choice)
    requires pid in s.payments && s.payments[pid] == row
    requires row.invoiceId in s.invoices && s.invoices[row.invoiceId] == inv
    ensures Runs(s, Flow(Capture(d), Loaded(pid, row, inv)), c,
                 Store(if d.receipt.Some? then s.payments[pid := StampedDoc(row, d)] else s.payments,
                       s.invoices[row.invoiceId := CreditedDoc(inv, d)]),
                 Done(true, Some(row.invoiceId)))
  {
    var f, out := Flow(Capture(d), Loaded(pid, row, inv)), Done(true, Some(row.invoiceId));
    SavedUnread(row, d);
    SavedUnreadInvoice(inv, d);
    if d.receipt.Some? {
      var s1 := SavePayment(s, pid, row, StampedDoc(row, d));
      var g := Flow(Capture(d), Stamped(pid, StampedDoc(row, d), inv));
      var t := SaveInvoice(s1, row.invoiceId, inv, CreditedDoc(inv, d));
      RunsLast(s1, g, c, t, out);
      RunsBack(s, f, c, s1, g.pc, t, out);
    } else {
      RunsLast(s, f, c, SaveInvoice(s, row.invoiceId, inv, CreditedDoc(inv, d)), out);
    }
  }

  lemma RunsFromClaimed(s: Store, d: Delivery, pid: Id, row: Payment, c: Choice)
    requires pid in s.payments && s.payments[pid] == row
    requires row.invoiceId in s.invoices && s.invoices[row.invoiceId].tenantId == row.tenantId
    ensures Runs(s, Flow(Capture(d), Claimed(pid, row)), c,
                 Store(if d.amount >= 0 && d.receipt.Some? then s.payments[pid := StampedDoc(row, d)] else s.payments,
                       if d.amount < 0 then s.invoices
                       else s.invoices[row.invoiceId := CreditedDoc(s.invoices[row.invoiceId], d)]),
                 if d.amount < 0 then Threw else Done(true, Some(row.invoiceId)))
  {
    var f, inv := Flow(Capture(d), Claimed(pid, row)), s.invoices[row.invoiceId];
    if d.amount < 0 {
      RunsLast(s, f, c, s, Threw);
    } else {
      RunsFromLoaded(s, d, pid, row, inv, c);
      RunsBack(s, f, c, s, Loaded(pid, row, inv),
               Store(if d.receipt.Some? then s.payments[pid := StampedDoc(row, d)] else s.payments,
                     s.invoices[row.invoiceId := CreditedDoc(inv, d)]), Done(true, Some(row.invoiceId)));
    }
  }

  /** The claim's effect and the rest of the capture's add up to the whole. */
  lemma ClaimThenRest(s: Store, d: Delivery, p: Id, row: Payment, s1: Store)
    requires p in s.payments && s.payments[p] == row && row.invoiceId in s.invoices
    requires s1 == Store(s.payments[p := ClaimedDoc(row, d)], s.invoices)
    ensures Store(if d.amount >= 0 && d.receipt.Some? then s1.payments[p := StampedDoc(ClaimedDoc(row, d), d)]
                  else s1.payments,
                  if d.amount < 0 then s1.invoices
                  else s1.invoices[row.invoiceId := CreditedDoc(s1.invoices[row.invoiceId], d)])
         == CaptureEffect(s, d, p)
  {
    assert s1.payments[p := CapturedRow(row, d)] == s.payments[p := CapturedRow(row, d)];
  }

  lemma RunsFromHolding(s: Store, d: Delivery, p: Id, c: Choice)
    requires StoreInv(s) && p in s.payments && s.payments[p].status == Created
    ensures s.payments[p].invoiceId in s.invoices
    ensures var f := Flow(Capture(d), Holding(p, s.payments[p]));
            if PayIdUsed(s, d.payId) then Runs(s, f, c, s, Done(false, Some(s.payments[p].invoiceId)))
            else Runs(s, f, c, CaptureEffect(s, d, p), CaptureOutcome(s, d, p))
  {
    var row := s.payments[p];
    var f := Flow(Capture(d), Holding(p, row));
    assert PaymentOk(s, row);
    assert TakenElsewhere(s, p, d.payId) <==> PayIdUsed(s, d.payId);
    if PayIdUsed(s, d.payId) {
      RunsLast(s, f, c, s, Done(false, Some(row.invoiceId)));
    } else {
      SavedUnread(row, d);
      var s1 := Store(s.payments[p := ClaimedDoc(row, d)], s.invoices);
      assert SavePayment(s, p, row, ClaimedDoc(row, d)) == s1;
      RunsFromClaimed(s1, d, p, ClaimedDoc(row, d), c);
      ClaimThenRest(s, d, p, row, s1);
      RunsBack(s, f, c, s1, Claimed(p, ClaimedDoc(row, d)), CaptureEffect(s, d, p), CaptureOutcome(s, d, p));
    }
  }

  /** Everything one delivery does, decided by two facts about the store it finds. */
  lemma CaptureAlone(s: Store, d: Delivery, c: Choice)
    requires StoreInv(s) && AloneOk(s, Flow(Capture(d), Fresh), c)
    ensures var (t, out) := Alone(s, Flow(Capture(d), Fresh), c);
            if PayIdUsed(s, d.payId) || !HasOpenRow(s, d.orderId) then t == s && out.Done? && !out.applied
            else
              && c.pending.Some? && c.pending.value in s.payments
              && var p := c.pending.value;
              && HasOrder(s.payments[p], d.orderId) && s.payments[p].status == Created
              && s.payments[p].invoiceId in s.invoices
              && t == CaptureEffect(s, d, p) && out == CaptureOutcome(s, d, p)
  {
    var f := Flow(Capture(d), Fresh);
    AloneStep(s, f, c);
    if c.resolved.Some? {
      var pid, row := c.resolved.value, s.payments[c.resolved.value];
      AloneStep(s, Flow(Capture(d), Resolved(pid, row)), c);
      if c.existing.Some? {
        assert s.payments[c.existing.value].gatewayPaymentId == Some(d.payId);
      } else {
        AloneStep(s, Flow(Capture(d), Unseen(pid, row)), c);
        OpenRowsShareTenant(s, d.orderId, pid);
        if c.pending.Some? {
          RunsFromHolding(s, d, c.pending.value, c);
        }
      }
    }
  }

  lemma HoldingEnds(s: Store, d: Delivery, p: Id, row: Payment, c: Choice, t: Store, out: Pc)
    requires Runs(s, Flow(Capture(d), Holding(p, row)), c, t, out)
    ensures if exists q :: q in s.payments && q != p && s.payments[q].gatewayPaymentId == Some(d.payId)
            then t == s && out == Done(false, Some(row.invoiceId))
            else out == Threw || out == Done(true, Some(row.invoiceId))
  {
    var f := Flow(Capture(d), Holding(p, row));
    AloneStep(s, f, c);
    if !TakenElsewhere(s, p, d.payId) {
      ClaimedEnds(SavePayment(s, p, row, ClaimedDoc(row, d)), d, p, ClaimedDoc(row, d), c);
    }
  }

  lemma ClaimedEnds(s: Store, d: Delivery, p: Id, row: Payment, c: Choice)
    requires AloneOk(s, Flow(Capture(d), Claimed(p, row)), c)
    ensures Alone(s, Flow(Capture(d), Claimed(p, row)), c).1 in {Threw, Done(true, Some(row.invoiceId))}
  {
    AloneStep(s, Flow(Capture(d), Claimed(p, row)), c);
    var (s1, pc) := Next(s, Flow(Capture(d), Claimed(p, row)), c);
    if pc.Loaded? {
      AloneStep(s1, Flow(Capture(d), pc), c);
      var (s2, pc2) := Next(s1, Flow(Capture(d), pc), c);
      if pc2.Stamped? {
        AloneStep(s2, Flow(Capture(d), pc2), c);
      }
    }
  }

  /** The answer of a capture that runs alone in the tenant of its order, and the invoice it
      names. */
  ghost predicate Answered(s: Store, tenantId: string, d: Delivery, c: Choice, t: Store, out: Pc) {
    // The tenant has a row with the payment id: refused, naming that row's invoice.
    && (c.existing.Some? <==>
          exists e :: e in s.payments && s.payments[e].tenantId == tenantId
                   && s.payments[e].gatewayPaymentId == Some(d.payId))
    && (c.existing.Some? ==>
          && c.existing.value in s.payments
          && var row := s.payments[c.existing.value];
          && row.tenantId == tenantId && row.gatewayPaymentId == Some(d.payId)
          && t == s && out == Done(false, Some(row.invoiceId)))
    // No row of the order is CREATED either: refused, naming none.
    && (c.existing.None? ==>
          (c.pending.Some? <==>
             exists p :: p in s.payments && s.payments[p].tenantId == tenantId
                      && s.payments[p].gatewayOrderId == d.orderId && s.payments[p].status == Created))
    && (c.existing.None? && c.pending.None? ==> t == s && out == Done(false, None))
    // Otherwise it takes such a row, and is refused only when another row has the payment id.
    && (c.existing.None? && c.pending.Some? ==>
          && c.pending.value in s.payments
          && var row := s.payments[c.pending.value];
          && row.tenantId == tenantId && row.gatewayOrderId == d.orderId && row.status == Created
          && if exists q :: q in s.payments && q != c.pending.value
                         && s.payments[q].gatewayPaymentId == Some(d.payId)
             then t == s && out == Done(false, Some(row.invoiceId))
             else out == Threw || out == Done(true, Some(row.invoiceId)))
  }

  /** That is how it answers, whatever the store holds. */
  lemma CaptureAnswers(s: Store, d: Delivery, pid: Id, owner: Payment, c: Choice, t: Store, out: Pc)
    requires Runs(s, Flow(Capture(d), Resolved(pid, owner)), c, t, out)
    ensures Answered(s, owner.tenantId, d, c, t, out)
  {
    AloneStep(s, Flow(Capture(d), Resolved(pid, owner)), c);
    if c.existing.Some? {
      assert HasPayId(s.payments[c.existing.value], owner.tenantId, d.payId);
    } else {
      assert forall e :: e in s.payments ==> !HasPayId(s.payments[e], owner.tenantId, d.payId);
      AloneStep(s, Flow(Capture(d), Unseen(pid, owner)), c);
      if c.pending.Some? {
        assert IsOpen(s.payments[c.pending.value], owner.tenantId, d.orderId);
        HoldingEnds(s, d, c.pending.value, s.payments[c.pending.value], c, t, out);
      } else {
        assert forall p :: p in s.payments ==> !IsOpen(s.payments[p], owner.tenantId, d.orderId);
      }
    }
  }

  /** Field by field, what an applied delivery leaves behind, and that it touches nothing else. */
  lemma CaptureRecords(s: Store, d: Delivery, c: Choice)
    requires StoreInv(s) && AloneOk(s, Flow(Capture(d), Fresh), c)
    requires var out := Alone(s, Flow(Capture(d), Fresh), c).1; out.Done? && out.applied
    ensures c.pending.Some? && c.pending.value in s.payments && s.payments[c.pending.value].invoiceId in s.invoices
    ensures var t, p := Alone(s, Flow(Capture(d), Fresh), c).0, c.pending.value;
            && t.payments.Keys == s.payments.Keys
            && (forall q :: q in s.payments && q != p ==> t.payments[q] == s.payments[q])
            && var was, row := s.payments[p], t.payments[p];
            && was.status == Created && was.gatewayOrderId == d.orderId && SamePayment(was, row)
            && row.status == Captured && row.gatewayPaymentId == Some(d.payId)
            && row.gatewaySignature == d.signature && row.paidAt == Some(d.paidAt)
            && row.receiptUrl == (if d.receipt.Some? then d.receipt else was.receiptUrl)
    ensures var t, i := Alone(s, Flow(Capture(d), Fresh), c).0, s.payments[c.pending.value].invoiceId;
            && t.invoices.Keys == s.invoices.Keys
            && (forall j :: j in s.invoices && j != i ==> t.invoices[j] == s.invoices[j])
            && var was, inv := s.invoices[i], t.invoices[i];
            && SameInvoice(was, inv)
            && inv.amountPaid - was.amountPaid == Min(was.amountDue - was.amountPaid, d.amount) >= 0
            && inv.status == ComputeInvoiceStatus(inv.amountDue, inv.amountPaid, inv.dueDate, d.now)
            && inv.receiptUrl == (if d.receipt.Some? then d.receipt else was.receiptUrl)
  {
    CaptureAlone(s, d, c);
    assert InvoiceOk(s.invoices[s.payments[c.pending.value].invoiceId]);
  }

  /** The row an order leaves behind is open, and asks for what the invoice still owes. */
  lemma OrderRecords(s: Store, tenantId: string, iid: Id, c: Choice)
    requires StoreInv(s) && AloneOk(s, Flow(Order(tenantId, iid), Fresh), c)
    requires Alone(s, Flow(Order(tenantId, iid), Fresh), c).1.Ordered?
    ensures c.newId !in s.payments && iid in s.invoices
    ensures var t := Alone(s, Flow(Order(tenantId, iid), Fresh), c).0;
            && t.invoices == s.invoices
            && t.payments.Keys == s.payments.Keys + {c.newId}
            && (forall q :: q in s.payments ==> t.payments[q] == s.payments[q])
            && var row, inv := t.payments[c.newId], s.invoices[iid];
            && row.invoiceId == iid && row.tenantId == inv.tenantId == tenantId && row.studentId == inv.studentId
            && inv.amountPaid + row.amount == inv.amountDue
            && row.status == Created && row.gatewayPaymentId == None
            && HasOpenRow(t, row.gatewayOrderId)
  {
    OrderAlone(s, tenantId, iid, c);
    var t := Alone(s, Flow(Order(tenantId, iid), Fresh), c).0;
    assert HasOrder(t.payments[c.newId], t.payments[c.newId].gatewayOrderId);
  }

  lemma OpenRowsShareTenant(s: Store, orderId: string, pid: Id)
    requires StoreInv(s) && pid in s.payments && HasOrder(s.payments[pid], orderId)
    ensures forall q :: q in s.payments && HasOrder(s.payments[q], orderId) && s.payments[q].status == Created ==>
                          IsOpen(s.payments[q], s.payments[pid].tenantId, orderId)
  {
    forall q | q in s.payments && HasOrder(s.payments[q], orderId) && s.payments[q].status == Created
      ensures IsOpen(s.payments[q], s.payments[pid].tenantId, orderId)
    {
      RoutingIsUnique(s, orderId, pid, q);
    }
  }

  lemma OrderAlone(s: Store, tenantId: string, iid: Id, c: Choice)
    requires AloneOk(s, Flow(Order(tenantId, iid), Fresh), c)
    ensures var (t, out) := Alone(s, Flow(Order(tenantId, iid), Fresh), c);
            if iid in s.invoices && s.invoices[iid].tenantId == tenantId && s.invoices[iid].status != Paid
            then
              && c.newId !in s.payments
              && t == s.(payments := s.payments[c.newId := NewPayment(iid, s.invoices[iid])])
              && out == Ordered(c.newId)
            else t == s && out == Refused
  {
    var f := Flow(Order(tenantId, iid), Fresh);
    AloneStep(s, f, c);
    if iid in s.invoices && s.invoices[iid].tenantId == tenantId && s.invoices[iid].status != Paid {
      AloneStep(s, Flow(f.req, Quoted(s.invoices[iid])), c);
    }
  }

  lemma BillAlone(s: Store, u: Upsert, c: Choice)
    requires AloneOk(s, Flow(Bill(u), Fresh), c)
    ensures var (t, out) := Alone(s, Flow(Bill(u), Fresh), c);
            if exists i :: i in s.invoices && SameKey(s.invoices[i], NewInvoice(u))
            then t == s && out == Billed(false)
            else
              && c.newId !in s.invoices
              && t == s.(invoices := s.invoices[c.newId := NewInvoice(u)])
              && out == Billed(true)
  {
    AloneStep(s, Flow(Bill(u), Fresh), c);
  }

  // ---- The invariant of serial runs ----

  /** The status of an invoice says where its ledger stands. */
  predicate InSync(inv: Invoice) {
    && (inv.status == Paid <==> inv.amountPaid == inv.amountDue > 0)
    && (inv.status == Partial <==> 0 < inv.amountPaid < inv.amountDue)
  }

  ghost predicate SerialInv(s: Store) {
    StoreInv(s) && forall i :: i in s.invoices ==> InSync(s.invoices[i])
  }

  /** Nothing is ever taken back: paid amounts only grow, PAID stays PAID, and a used
      gateway payment id stays used. */
  ghost predicate Grows(s: Store, t: Store) {
    && Evolves(s, t)
    && (forall i :: i in s.invoices ==>
          && s.invoices[i].amountPaid <= t.invoices[i].amountPaid
          && (s.invoices[i].status == Paid ==> t.invoices[i].status == Paid))
    && (forall x: string :: PayIdUsed(s, x) ==> PayIdUsed(t, x))
  }

  ghost predicate GrowsInSync(s: Store, t: Store) {
    Grows(s, t) && forall i :: i in t.invoices ==> InSync(t.invoices[i])
  }

  /** No payment id is lost when rows with one stay as they are. */
  lemma PayIdsStay(s: Store, t: Store)
    requires forall p :: p in s.payments && s.payments[p].gatewayPaymentId.Some? ==>
                           p in t.payments && t.payments[p] == s.payments[p]
    ensures forall x: string :: PayIdUsed(s, x) ==> PayIdUsed(t, x)
  {
    forall x: string | PayIdUsed(s, x)
      ensures PayIdUsed(t, x)
    {
      var p :| p in s.payments && s.payments[p].gatewayPaymentId == Some(x);
      assert t.payments[p].gatewayPaymentId == Some(x);
    }
  }

  lemma EffectGrows(s: Store, d: Delivery, p: Id)
    requires SerialInv(s) && p in s.payments && s.payments[p].status == Created
    ensures s.payments[p].invoiceId in s.invoices
    ensures var t := CaptureEffect(s, d, p); Evolves(s, t) ==> GrowsInSync(s, t)
  {
    assert PaymentOk(s, s.payments[p]);
    var t := CaptureEffect(s, d, p);
    PayIdsStay(s, t);
    if d.amount >= 0 {
      CreditedInSync(s.invoices[s.payments[p].invoiceId], d);
    }
  }

  lemma CreditedInSync(inv: Invoice, d: Delivery)
    requires InvoiceOk(inv) && InSync(inv) && d.amount >= 0
    ensures var doc := CreditedDoc(inv, d);
            && InSync(doc) && doc.amountPaid >= inv.amountPaid && (inv.status == Paid ==> doc.status == Paid)
  {
  }

  lemma CaptureGrows(s: Store, d: Delivery, c: Choice)
    requires SerialInv(s) && AloneOk(s, Flow(Capture(d), Fresh), c)
    ensures var t := Alone(s, Flow(Capture(d), Fresh), c).0; Evolves(s, t) ==> GrowsInSync(s, t)
  {
    CaptureAlone(s, d, c);
    if !PayIdUsed(s, d.payId) && HasOpenRow(s, d.orderId) {
      EffectGrows(s, d, c.pending.value);
    }
  }

  lemma OrderGrows(s: Store, req: Request, c: Choice)
    requires SerialInv(s) && req.Order? && AloneOk(s, Flow(req, Fresh), c)
    ensures var t := Alone(s, Flow(req, Fresh), c).0; Evolves(s, t) ==> GrowsInSync(s, t)
  {
    OrderAlone(s, req.tenantId, req.invoiceId, c);
    PayIdsStay(s, Alone(s, Flow(req, Fresh), c).0);
  }

  lemma BillGrows(s: Store, req: Request, c: Choice)
    requires SerialInv(s) && RequestOk(req) && req.Bill? && AloneOk(s, Flow(req, Fresh), c)
    ensures var t := Alone(s, Flow(req, Fresh), c).0; Evolves(s, t) ==> GrowsInSync(s, t)
  {
    BillAlone(s, req.u, c);
    PayIdsStay(s, Alone(s, Flow(req, Fresh), c).0);
  }

  lemma RequestKeeps(s: Store, req: Request, c: Choice)
    requires SerialInv(s) && RequestOk(req) && AloneOk(s, Flow(req, Fresh), c)
    ensures var t := Alone(s, Flow(req, Fresh), c).0; SerialInv(t) && Grows(s, t)
  {
    AloneKeeps(s, Flow(req, Fresh), c);
    match req {
      case Capture(d) => CaptureGrows(s, d, c);
      case Order(_, _) => OrderGrows(s, req, c);
      case Bill(_) => BillGrows(s, req, c);
    }
  }

  ghost predicate RequestsOk(log: seq<Entry>) {
    forall k :: 0 <= k < |log| ==> RequestOk(log[k].req)
  }

  lemma {:induction false} SerialKeeps(s: Store, log: seq<Entry>)
    requires SerialInv(s) && Serial(s, log) && RequestsOk(log)
    ensures SerialInv(SerialAfter(s, log)) && Grows(s, SerialAfter(s, log))
    decreases |log|
  {
    if log != [] {
      var before, e := log[..|log| - 1], log[|log| - 1];
      SerialKeeps(s, before);
      RequestKeeps(SerialAfter(s, before), e.req, e.choice);
      EvolvesTransitive(s, SerialAfter(s, before), SerialAfter(s, log));
    }
  }

  lemma SerialAppend(s0: Store, log: seq<Entry>, e: Entry)
    requires Serial(s0, log) && AloneOk(SerialAfter(s0, log), Flow(e.req, Fresh), e.choice)
    requires Alone(SerialAfter(s0, log), Flow(e.req, Fresh), e.choice).1 == e.outcome
    ensures Serial(s0, log + [e])
    ensures SerialAfter(s0, log + [e]) == Alone(SerialAfter(s0, log), Flow(e.req, Fresh), e.choice).0
  {
    assert (log + [e])[..|log|] == log;
  }

  // ---- At most once ----

  predicate IsCaptureOf(e: Entry, payId: string) {
    e.req.Capture? && e.req.d.payId == payId
  }

  /** The entry claimed its payment row. */
  predicate Claims(e: Entry) {
    e.outcome.Threw? || (e.outcome.Done? && e.outcome.applied)
  }

  lemma {:induction false} SerialPrefix(s: Store, log: seq<Entry>, k: nat)
    requires Serial(s, log) && k <= |log|
    ensures Serial(s, log[..k])
    decreases |log|
  {
    if k < |log| {
      SerialPrefix(s, log[..|log| - 1], k);
      assert log[..|log| - 1][..k] == log[..k];
    } else {
      assert log[..k] == log;
    }
  }

  lemma GrowsTransitive(s: Store, t: Store, u: Store)
    requires Grows(s, t) && Grows(t, u)
    ensures Grows(s, u)
  {
    EvolvesTransitive(s, t, u);
  }

  lemma StepGrows(s: Store, log: seq<Entry>, k: nat)
    requires SerialInv(s) && Serial(s, log) && RequestsOk(log) && k < |log|
    ensures Serial(s, log[..k]) && Serial(s, log[..k + 1])
    ensures Grows(SerialAfter(s, log[..k]), SerialAfter(s, log[..k + 1]))
  {
    SerialPrefix(s, log, k);
    SerialPrefix(s, log, k + 1);
    SerialKeeps(s, log[..k]);
    assert log[..k + 1][..k] == log[..k];
    RequestKeeps(SerialAfter(s, log[..k]), log[k].req, log[k].choice);
  }

  lemma PrefixKeeps(s: Store, log: seq<Entry>, k: nat)
    requires SerialInv(s) && Serial(s, log) && RequestsOk(log) && k <= |log|
    ensures Serial(s, log[..k]) && SerialInv(SerialAfter(s, log[..k]))
  {
    SerialPrefix(s, log, k);
    SerialKeeps(s, log[..k]);
  }

  /** Between two points of a run everything only grows. */
  lemma {:induction false} SerialGrows(s: Store, log: seq<Entry>, j: nat, k: nat)
    requires SerialInv(s) && Serial(s, log) && RequestsOk(log) && j <= k <= |log|
    ensures Serial(s, log[..j]) && Serial(s, log[..k])
    ensures SerialInv(SerialAfter(s, log[..j])) && SerialInv(SerialAfter(s, log[..k]))
    ensures Grows(SerialAfter(s, log[..j]), SerialAfter(s, log[..k]))
    decreases k
  {
    PrefixKeeps(s, log, j);
    if j < k {
      SerialGrows(s, log, j, k - 1);
      StepGrows(s, log, k - 1);
      PrefixKeeps(s, log, k);
      GrowsTransitive(SerialAfter(s, log[..j]), SerialAfter(s, log[..k - 1]), SerialAfter(s, log[..k]));
    }
  }

  lemma ClaimUsesPayId(s: Store, e: Entry, payId: string)
    requires StoreInv(s) && IsCaptureOf(e, payId) && Claims(e)
    requires AloneOk(s, Flow(e.req, Fresh), e.choice) && Alone(s, Flow(e.req, Fresh), e.choice).1 == e.outcome
    ensures PayIdUsed(Alone(s, Flow(e.req, Fresh), e.choice).0, payId)
  {
    CaptureAlone(s, e.req.d, e.choice);
    var t := Alone(s, Flow(e.req, Fresh), e.choice).0;
    assert t.payments[e.choice.pending.value].gatewayPaymentId == Some(payId);
  }

  lemma UsedIsRefused(s: Store, e: Entry, payId: string)
    requires StoreInv(s) && IsCaptureOf(e, payId) && PayIdUsed(s, payId)
    requires AloneOk(s, Flow(e.req, Fresh), e.choice) && Alone(s, Flow(e.req, Fresh), e.choice).1 == e.outcome
    ensures !Claims(e) && Alone(s, Flow(e.req, Fresh), e.choice).0 == s
  {
    CaptureAlone(s, e.req.d, e.choice);
  }

  /** The payment id of a claiming entry is in use at every later point of the run. */
  lemma UsedLater(s: Store, log: seq<Entry>, payId: string, j: nat, k: nat)
    requires SerialInv(s) && Serial(s, log) && RequestsOk(log) && j < k <= |log|
    requires IsCaptureOf(log[j], payId) && Claims(log[j])
    ensures Serial(s, log[..k]) && SerialInv(SerialAfter(s, log[..k]))
    ensures PayIdUsed(SerialAfter(s, log[..k]), payId)
  {
    SerialGrows(s, log, j, j + 1);
    LastStep(s, log, j);
    ClaimUsesPayId(SerialAfter(s, log[..j]), log[j], payId);
    SerialGrows(s, log, j + 1, k);
  }

  /** Once a delivery has claimed a gateway payment id, every later delivery of that id,
      for whatever order and tenant, is refused and leaves the whole store as it was. */
  lemma AtMostOnce(s: Store, log: seq<Entry>, payId: string, j: nat, k: nat)
    requires SerialInv(s) && Serial(s, log) && RequestsOk(log)
    requires j < k < |log|
    requires IsCaptureOf(log[j], payId) && IsCaptureOf(log[k], payId)
    requires Claims(log[j])
    ensures !Claims(log[k])
    ensures Serial(s, log[..k]) && Serial(s, log[..k + 1])
    ensures SerialAfter(s, log[..k + 1]) == SerialAfter(s, log[..k])
  {
    UsedLater(s, log, payId, j, k);
    SerialPrefix(s, log, k + 1);
    LastStep(s, log, k);
    UsedIsRefused(SerialAfter(s, log[..k]), log[k], payId);
  }

  lemma LastStep(s: Store, log: seq<Entry>, k: nat)
    requires k < |log| && Serial(s, log[..k]) && Serial(s, log[..k + 1])
    ensures var f := Flow(log[k].req, Fresh);
            && AloneOk(SerialAfter(s, log[..k]), f, log[k].choice)
            && Alone(SerialAfter(s, log[..k]), f, log[k].choice) == (SerialAfter(s, log[..k + 1]), log[k].outcome)
  {
    assert log[..k + 1][..k] == log[..k];
  }
}
