/** Invoice status in interleavings: the paid amount and the status are saved as two fields,
    and each only if it differs from the snapshot, so a stale snapshot can mix two documents. */
module CaptureStatus {
  import opened CaptureProtocol
  import opened CaptureInvariants
  import opened CaptureSerial
  import opened CaptureReduction
  import opened CaptureCredits

  /** Where a ledger stands. */
  datatype Standing = Unpaid | Part | Settled

  function StandingOf(inv: Invoice): Standing {
    if inv.amountPaid == inv.amountDue > 0 then Settled
    else if 0 < inv.amountPaid < inv.amountDue then Part
    else Unpaid
  }

  /** The credit saves both fields or neither, or mixes documents of one standing. */
  predicate StatusFits(current: Invoice, read: Invoice, d: Delivery) {
    var doc := CreditedDoc(read, d);
    (doc.amountPaid != read.amountPaid <==> doc.status != read.status) || StandingOf(doc) == StandingOf(current)
  }

  /** A credit computed from snapshot `read` leaves amount and status in step if and only if
      it fits. */
  lemma StaleStatusIff(current: Invoice, read: Invoice, d: Delivery)
    requires InvoiceOk(current) && InvoiceOk(read) && SameInvoice(current, read) && d.amount >= 0 && InSync(current)
    ensures InSync(SavedInvoice(current, read, CreditedDoc(read, d))) <==> StatusFits(current, read, d)
  {
    CreditedDocInSync(read, d);
  }

  lemma CreditedDocInSync(read: Invoice, d: Delivery)
    requires InvoiceOk(read) && d.amount >= 0
    ensures InSync(CreditedDoc(read, d))
  {
  }

  // ---- Runs ----

  ghost predicate SyncAt(t: Store, i: Id) {
    i in t.invoices ==> InSync(t.invoices[i])
  }

  /** Invoice i is in step at every point of the run. */
  ghost predicate SyncAlways(s: State, ms: seq<Move>, i: Id)
    requires Run(s, ms)
    decreases |ms|
  {
    (ms == [] || SyncAlways(s, ms[..|ms| - 1], i)) && SyncAt(After(s, ms).store, i)
  }

  /** Every credit of the run to invoice i fits what is stored. */
  ghost predicate CreditsFit(s: State, ms: seq<Move>, i: Id)
    requires Run(s, ms)
    decreases |ms|
  {
    ms == [] ||
    var before, m := ms[..|ms| - 1], ms[|ms| - 1];
    CreditsFit(s, before, i) && (CreditsInvoice(After(s, before), m, i) ==> FitsIn(After(s, before), m, i))
  }

  ghost predicate FitsIn(s: State, m: Move, i: Id)
    requires Enabled(s, m) && CreditsInvoice(s, m, i)
  {
    i in s.store.invoices && StatusFits(s.store.invoices[i], s.flows[m.tid].pc.inv, s.flows[m.tid].req.d)
  }

  lemma InsertedInSync(s: State, m: Move, i: Id)
    requires Inv(s) && Enabled(s, m) && i !in s.store.invoices
    ensures SyncAt(Apply(s, m).store, i)
  {
    assert FlowInv(s.store, s.flows[m.tid]);
  }

  lemma SyncStep(s: State, m: Move, i: Id)
    requires Inv(s) && Enabled(s, m) && SyncAt(s.store, i)
    ensures SyncAt(Apply(s, m).store, i) <==> (CreditsInvoice(s, m, i) ==> FitsIn(s, m, i))
  {
    MoveAndInvoice(s, m, i);
    if i !in s.store.invoices {
      InsertedInSync(s, m, i);
    } else if CreditsInvoice(s, m, i) {
      StaleStatusIff(s.store.invoices[i], s.flows[m.tid].pc.inv, s.flows[m.tid].req.d);
    }
  }

  /** Over every interleaving, crashes included: at every point an invoice is PAID exactly when
      it is paid in full and PARTIAL exactly when it is paid in part, if and only if every
      credit to it fits. */
  lemma {:induction false} SyncAlwaysIff(s: State, ms: seq<Move>, i: Id)
    requires Inv(s) && Run(s, ms) && SyncAt(s.store, i)
    ensures SyncAlways(s, ms, i) <==> CreditsFit(s, ms, i)
    decreases |ms|
  {
    if ms != [] {
      var before := ms[..|ms| - 1];
      SyncAlwaysIff(s, before, i);
      if SyncAlways(s, before, i) {
        AllInterleavings(s, before);
        SyncStep(After(s, before), ms[|ms| - 1], i);
      }
    }
  }

  // ---- Exclusive interleavings ----

  lemma CurrentFits(current: Invoice, d: Delivery)
    requires InvoiceOk(current) && InSync(current) && d.amount >= 0
    ensures StatusFits(current, current, d)
  {
    SavedUnreadInvoice(current, d);
    CreditedDocInSync(current, d);
    StaleStatusIff(current, current, d);
  }

  lemma {:induction false} ExclusiveFits(s0: State, ms: seq<Move>, i: Id)
    requires Initial(s0) && SerialInv(s0.store) && ExclusiveRun(s0, ms)
    ensures CreditsFit(s0, ms, i) && SyncAlways(s0, ms, i)
    decreases |ms|
  {
    if ms != [] {
      var before, m := ms[..|ms| - 1], ms[|ms| - 1];
      var now := After(s0, before);
      ExclusiveFits(s0, before, i);
      ExclusiveIsTight(s0, before);
      AllInterleavings(s0, before);
      MoveAndInvoice(now, m, i);
      if CreditsInvoice(now, m, i) {
        assert IsCurrent(now.store, now.flows[m.tid]);
        CurrentFits(now.store.invoices[i], now.flows[m.tid].req.d);
      }
      SyncStep(now, m, i);
    }
  }

  /** While no two requests in flight concern one invoice, and whichever of them die at
      whatever point, every invoice's status says where its ledger stands. */
  lemma ExclusiveStatus(s0: State, ms: seq<Move>)
    requires Initial(s0) && SerialInv(s0.store) && ExclusiveRun(s0, ms)
    ensures SerialInv(After(s0, ms).store)
  {
    ExclusiveIsTight(s0, ms);
    forall i | i in After(s0, ms).store.invoices
      ensures InSync(After(s0, ms).store.invoices[i])
    {
      ExclusiveFits(s0, ms, i);
    }
  }
}
