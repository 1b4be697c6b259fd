/** The ledger of unrestricted interleavings: each credit is computed from a snapshot, and the
    ledger law holds exactly as long as no snapshot misleads. */
module CaptureCredits {
  import opened FeeCalc
  import opened CaptureProtocol
  import opened CaptureInvariants
  import opened CaptureLedger
  import opened CaptureReduction

  /** The snapshot's amount is current, or is still open and either way the credit settles. */
  predicate ExactCredit(current: Invoice, read: Invoice, amount: int) {
    var due, paid, seen := current.amountDue, current.amountPaid, read.amountPaid;
    amount == 0 || seen == paid || (seen < due <= Min(seen, paid) + amount)
  }

  /** A credit computed from snapshot `read` lands right on the stored invoice exactly when
      the snapshot does not mislead. */
  lemma StaleCreditIsExactIff(current: Invoice, read: Invoice, d: Delivery)
    requires InvoiceOk(current) && InvoiceOk(read) && SameInvoice(current, read) && d.amount >= 0
    ensures SavedInvoice(current, read, CreditedDoc(read, d)).amountPaid
            == Min(current.amountDue, current.amountPaid + d.amount)
            <==> ExactCredit(current, read, d.amount)
  {
    var due, paid, seen := current.amountDue, current.amountPaid, read.amountPaid;
    var doc := CreditedDoc(read, d);
    assert doc.amountPaid == Min(due, seen + d.amount);
    assert d.amount > 0 ==> (doc.amountPaid != seen <==> seen < due);
  }

  // ---- Credits along a run ----

  /** The move writes a credit to invoice i. */
  ghost predicate CreditsInvoice(s: State, m: Move, i: Id)
    requires Enabled(s, m)
  {
    var f := s.flows[m.tid];
    && !m.crash && f.req.Capture?
    && ((f.pc.Loaded? && f.req.d.receipt.None?) || f.pc.Stamped?)
    && f.pc.row.invoiceId == i
  }

  /** The amounts a run credits to invoice i, in order. */
  ghost function RunCredits(s: State, ms: seq<Move>, i: Id): seq<int>
    requires Run(s, ms)
    decreases |ms|
  {
    if ms == [] then []
    else
      var before, m := ms[..|ms| - 1], ms[|ms| - 1];
      RunCredits(s, before, i)
      + if CreditsInvoice(After(s, before), m, i) then [After(s, before).flows[m.tid].req.d.amount] else []
  }

  /** Every credit of the run to invoice i is computed from a snapshot that does not mislead. */
  ghost predicate CreditsExact(s: State, ms: seq<Move>, i: Id)
    requires Run(s, ms)
    decreases |ms|
  {
    ms == [] ||
    var before, m := ms[..|ms| - 1], ms[|ms| - 1];
    && CreditsExact(s, before, i)
    && (CreditsInvoice(After(s, before), m, i) ==> CreditIsExactIn(After(s, before), m, i))
  }

  ghost predicate CreditIsExactIn(s: State, m: Move, i: Id)
    requires Enabled(s, m) && CreditsInvoice(s, m, i)
  {
    i in s.store.invoices && ExactCredit(s.store.invoices[i], s.flows[m.tid].pc.inv, s.flows[m.tid].req.d.amount)
  }

  /** The ledger law for invoice i at the end of a run. */
  ghost predicate LedgerHolds(s: State, ms: seq<Move>, i: Id)
    requires Run(s, ms)
  {
    StandsAt(After(s, ms).store, i, PaidIn(s.store, i), RunCredits(s, ms, i))
  }

  ghost predicate StandsAt(t: Store, i: Id, start: int, credits: seq<int>) {
    if i in t.invoices then t.invoices[i].amountPaid == Min(t.invoices[i].amountDue, start + Sum(credits))
    else credits == []
  }

  /** It holds at every point of the run. */
  ghost predicate LedgerAlways(s: State, ms: seq<Move>, i: Id)
    requires Run(s, ms)
    decreases |ms|
  {
    (ms == [] || LedgerAlways(s, ms[..|ms| - 1], i)) && LedgerHolds(s, ms, i)
  }

  /** One move and invoice i: its credit, saved over what is stored, or no change. */
  lemma MoveAndInvoice(s: State, m: Move, i: Id)
    requires Inv(s) && Enabled(s, m)
    ensures i in s.store.invoices ==> i in Apply(s, m).store.invoices
    ensures i !in s.store.invoices ==> !CreditsInvoice(s, m, i) && PaidIn(Apply(s, m).store, i) == 0
    ensures i in s.store.invoices && !CreditsInvoice(s, m, i) ==>
              Apply(s, m).store.invoices[i] == s.store.invoices[i]
    ensures i in s.store.invoices && CreditsInvoice(s, m, i) ==>
              var f, cur := s.flows[m.tid], s.store.invoices[i];
              && f.req.d.amount >= 0 && InvoiceOk(cur) && InvoiceOk(f.pc.inv) && SameInvoice(cur, f.pc.inv)
              && Apply(s, m).store.invoices[i] == SavedInvoice(cur, f.pc.inv, CreditedDoc(f.pc.inv, f.req.d))
  {
    assert FlowInv(s.store, s.flows[m.tid]);
    if i in s.store.invoices {
      assert InvoiceOk(s.store.invoices[i]);
    }
  }

  /** A credit on an invoice that stands at min(due, start + credits) leaves it standing with
      that credit added exactly when its snapshot does not mislead. */
  lemma CreditStands(t: Store, u: Store, i: Id, start: int, credits: seq<int>, read: Invoice, d: Delivery)
    requires i in t.invoices && i in u.invoices && StandsAt(t, i, start, credits) && d.amount >= 0
    requires InvoiceOk(t.invoices[i]) && InvoiceOk(read) && SameInvoice(t.invoices[i], read)
    requires u.invoices[i] == SavedInvoice(t.invoices[i], read, CreditedDoc(read, d))
    ensures StandsAt(u, i, start, credits + [d.amount]) <==> ExactCredit(t.invoices[i], read, d.amount)
  {
    var cur := t.invoices[i];
    StaleCreditIsExactIff(cur, read, d);
    SumSnoc(credits, d.amount);
    assert Min(cur.amountDue, cur.amountPaid + d.amount) == Min(cur.amountDue, start + Sum(credits) + d.amount);
  }

  lemma LedgerQuiet(s: State, ms: seq<Move>, i: Id)
    requires Inv(s) && Run(s, ms) && ms != [] && LedgerHolds(s, ms[..|ms| - 1], i)
    requires !CreditsInvoice(After(s, ms[..|ms| - 1]), ms[|ms| - 1], i)
    ensures LedgerHolds(s, ms, i)
  {
    var before, m := ms[..|ms| - 1], ms[|ms| - 1];
    AllInterleavings(s, before);
    MoveAndInvoice(After(s, before), m, i);
    ApplyKeeps(After(s, before), m);
    NoCredit(s, ms, i);
    StandsUntouched(After(s, before).store, After(s, ms).store, i, PaidIn(s.store, i), RunCredits(s, before, i));
  }

  lemma StandsUntouched(t: Store, u: Store, i: Id, start: int, credits: seq<int>)
    requires StoreInv(u) && StandsAt(t, i, start, credits)
    requires i in t.invoices ==> i in u.invoices && u.invoices[i] == t.invoices[i]
    requires i !in t.invoices ==> start == 0 && PaidIn(u, i) == 0
    ensures StandsAt(u, i, start, credits)
  {
    if i in u.invoices {
      assert InvoiceOk(u.invoices[i]);
    }
  }

  lemma NoCredit(s: State, ms: seq<Move>, i: Id)
    requires Run(s, ms) && ms != [] && !CreditsInvoice(After(s, ms[..|ms| - 1]), ms[|ms| - 1], i)
    ensures RunCredits(s, ms, i) == RunCredits(s, ms[..|ms| - 1], i)
  {
  }

  lemma LedgerCredit(s: State, ms: seq<Move>, i: Id, now: State, m: Move)
    requires Inv(s) && Run(s, ms) && ms != [] && LedgerHolds(s, ms[..|ms| - 1], i)
    requires now == After(s, ms[..|ms| - 1]) && m == ms[|ms| - 1] && CreditsInvoice(now, m, i)
    ensures LedgerHolds(s, ms, i) <==> CreditIsExactIn(now, m, i)
  {
    var f := now.flows[m.tid];
    AllInterleavings(s, ms[..|ms| - 1]);
    MoveAndInvoice(now, m, i);
    CreditStands(now.store, After(s, ms).store, i, PaidIn(s.store, i), RunCredits(s, ms[..|ms| - 1], i),
                 f.pc.inv, f.req.d);
  }

  /** If the law held before a move, it holds after it exactly when the move's credit is exact. */
  lemma LedgerStep(s: State, ms: seq<Move>, i: Id)
    requires Inv(s) && Run(s, ms) && ms != [] && LedgerHolds(s, ms[..|ms| - 1], i)
    ensures var now, m := After(s, ms[..|ms| - 1]), ms[|ms| - 1];
            LedgerHolds(s, ms, i) <==> (CreditsInvoice(now, m, i) ==> CreditIsExactIn(now, m, i))
  {
    var now, m := After(s, ms[..|ms| - 1]), ms[|ms| - 1];
    if CreditsInvoice(now, m, i) {
      LedgerCredit(s, ms, i, now, m);
    } else {
      LedgerQuiet(s, ms, i);
    }
  }

  lemma LedgerAtStart(s: State, i: Id)
    requires Inv(s)
    ensures LedgerHolds(s, [], i)
  {
    if i in s.store.invoices {
      assert InvoiceOk(s.store.invoices[i]);
    }
  }

  /** Over every interleaving, crashes included: at every point an invoice's amountPaid is
      min(amountDue, what it was + all that was credited to it), if and only if every credit
      was computed from a snapshot that does not mislead. */
  lemma {:induction false} LedgerAlwaysIff(s: State, ms: seq<Move>, i: Id)
    requires Inv(s) && Run(s, ms)
    ensures LedgerAlways(s, ms, i) <==> CreditsExact(s, ms, i)
    decreases |ms|
  {
    if ms == [] {
      LedgerAtStart(s, i);
    } else {
      var before := ms[..|ms| - 1];
      LedgerAlwaysIff(s, before, i);
      if LedgerAlways(s, before, i) {
        assert LedgerHolds(s, before, i);
        LedgerStep(s, ms, i);
      }
    }
  }

  // ---- Exclusive interleavings ----

  lemma {:induction false} ExclusiveCreditsExact(s0: State, ms: seq<Move>, i: Id)
    requires Initial(s0) && ExclusiveRun(s0, ms)
    ensures CreditsExact(s0, ms, i)
    decreases |ms|
  {
    if ms != [] {
      var before, m := ms[..|ms| - 1], ms[|ms| - 1];
      ExclusiveCreditsExact(s0, before, i);
      ExclusiveIsTight(s0, before);
      assert IsCurrent(After(s0, before).store, After(s0, before).flows[m.tid]);
    }
  }

  /** While no two requests in flight concern one invoice, and whichever of them die at
      whatever point, the ledger law holds at every point. */
  lemma ExclusiveLedger(s0: State, ms: seq<Move>, i: Id)
    requires Initial(s0) && ExclusiveRun(s0, ms)
    ensures LedgerAlways(s0, ms, i)
  {
    ExclusiveCreditsExact(s0, ms, i);
    LedgerAlwaysIff(s0, ms, i);
  }
}
