/** The ledger law of serial runs: what an invoice has been paid is what was credited
    to it, up to what it was due. */
module CaptureLedger {
  import opened Wrappers
  import opened FeeCalc
  import opened CaptureProtocol
  import opened CaptureInvariants
  import opened CaptureSerial

  /** The entry credited invoice i. */
  predicate Credits(e: Entry, i: Id) {
    e.req.Capture? && e.outcome == Done(true, Some(i))
  }

  /** The amounts a log credits to invoice i, in order. */
  function CreditsTo(log: seq<Entry>, i: Id): seq<int> {
    if log == [] then []
    else
      var before, e := CreditsTo(log[..|log| - 1], i), log[|log| - 1];
      if Credits(e, i) then before + [e.req.d.amount] else before
  }

  function PaidIn(s: Store, i: Id): int {
    if i in s.invoices then s.invoices[i].amountPaid else 0
  }

  lemma CaptureMoves(s: Store, d: Delivery, c: Choice, i: Id)
    requires StoreInv(s) && AloneOk(s, Flow(Capture(d), Fresh), c)
    ensures var (t, out) := Alone(s, Flow(Capture(d), Fresh), c);
            && t.invoices.Keys == s.invoices.Keys
            && (out == Done(true, Some(i)) ==> i in s.invoices && d.amount >= 0)
            && (i in s.invoices ==>
                  PaidIn(t, i) == if out == Done(true, Some(i))
                                  then Min(s.invoices[i].amountDue, PaidIn(s, i) + d.amount) else PaidIn(s, i))
  {
    CaptureAlone(s, d, c);
  }

  /** One request moves invoice i's paid amount by exactly what it credits, clamped. */
  lemma RequestMoves(s: Store, e: Entry, i: Id)
    requires SerialInv(s) && AloneOk(s, Flow(e.req, Fresh), e.choice)
    requires Alone(s, Flow(e.req, Fresh), e.choice).1 == e.outcome
    ensures var t := Alone(s, Flow(e.req, Fresh), e.choice).0;
            && (Credits(e, i) ==> i in s.invoices && e.req.d.amount >= 0)
            && (i in t.invoices ==>
                  PaidIn(t, i) == if Credits(e, i)
                                  then Min(t.invoices[i].amountDue, PaidIn(s, i) + e.req.d.amount) else PaidIn(s, i))
            && (i in s.invoices ==> i in t.invoices)
  {
    match e.req
    case Capture(d) =>
      CaptureMoves(s, d, e.choice, i);
      AloneKeeps(s, Flow(e.req, Fresh), e.choice);
    case Order(tenantId, iid) => OrderAlone(s, tenantId, iid, e.choice);
    case Bill(u) => BillAlone(s, u, e.choice);
  }

  /** Invoice i stands at min(due, start + the credits), none of them negative. */
  ghost predicate Stands(s: Store, i: Id, start: int, credits: seq<int>) {
    && i in s.invoices
    && (forall k :: 0 <= k < |credits| ==> credits[k] >= 0)
    && s.invoices[i].amountPaid == Min(s.invoices[i].amountDue, start + Sum(credits))
  }

  lemma StandsStep(s: Store, e: Entry, i: Id, start: int, credits: seq<int>)
    requires SerialInv(s) && AloneOk(s, Flow(e.req, Fresh), e.choice)
    requires RequestOk(e.req) && Alone(s, Flow(e.req, Fresh), e.choice).1 == e.outcome
    requires Stands(s, i, start, credits)
    ensures Stands(Alone(s, Flow(e.req, Fresh), e.choice).0, i, start,
                   if Credits(e, i) then credits + [e.req.d.amount] else credits)
  {
    var t := Alone(s, Flow(e.req, Fresh), e.choice).0;
    RequestMoves(s, e, i);
    RequestKeeps(s, e.req, e.choice);
    assert t.invoices[i].amountDue == s.invoices[i].amountDue;
    if Credits(e, i) {
      StandsAfterCredit(s, t, i, start, credits, e.req.d.amount);
    } else {
      StandsAfterNone(s, t, i, start, credits);
    }
  }

  lemma StandsAfterCredit(s: Store, t: Store, i: Id, start: int, credits: seq<int>, amount: int)
    requires Stands(s, i, start, credits) && amount >= 0
    requires i in t.invoices && t.invoices[i].amountDue == s.invoices[i].amountDue
    requires t.invoices[i].amountPaid == Min(t.invoices[i].amountDue, s.invoices[i].amountPaid + amount)
    ensures Stands(t, i, start, credits + [amount])
  {
    SumSnoc(credits, amount);
  }

  lemma StandsAfterNone(s: Store, t: Store, i: Id, start: int, credits: seq<int>)
    requires Stands(s, i, start, credits)
    requires i in t.invoices && t.invoices[i].amountDue == s.invoices[i].amountDue
    requires t.invoices[i].amountPaid == s.invoices[i].amountPaid
    ensures Stands(t, i, start, credits)
  {
  }

  /** amountPaid == min(amountDue, what it was + all that was credited), over every serial run. */
  lemma {:induction false} LedgerLaw(s: Store, log: seq<Entry>, i: Id)
    requires SerialInv(s) && Serial(s, log) && RequestsOk(log)
    requires i in SerialAfter(s, log).invoices
    ensures Stands(SerialAfter(s, log), i, PaidIn(s, i), CreditsTo(log, i))
    decreases |log|
  {
    if log != [] {
      var before, e := log[..|log| - 1], log[|log| - 1];
      SerialKeeps(s, before);
      var t := SerialAfter(s, before);
      if i in t.invoices {
        LedgerLaw(s, before, i);
        StandsStep(t, e, i, PaidIn(s, i), CreditsTo(before, i));
      } else {
        NoCreditsBefore(s, before, i);
        RequestMoves(t, e, i);
        RequestKeeps(t, e.req, e.choice);
      }
    }
  }

  lemma SumSnoc(xs: seq<int>, x: int)
    ensures Sum(xs + [x]) == Sum(xs) + x
  {
    assert (xs + [x])[..|xs|] == xs;
  }

  lemma {:induction false} NoCreditsBefore(s: Store, log: seq<Entry>, i: Id)
    requires SerialInv(s) && Serial(s, log) && RequestsOk(log)
    requires i !in SerialAfter(s, log).invoices
    ensures CreditsTo(log, i) == [] && i !in s.invoices
    decreases |log|
  {
    if log != [] {
      var before, e := log[..|log| - 1], log[|log| - 1];
      SerialKeeps(s, before);
      RequestMoves(SerialAfter(s, before), e, i);
      NoCreditsBefore(s, before, i);
    }
  }

  // ---- Order of the captures ----

  lemma {:induction false} SumConcat(xs: seq<int>, ys: seq<int>)
    ensures Sum(xs + ys) == Sum(xs) + Sum(ys)
  {
    if ys == [] {
      assert xs + ys == xs;
    } else {
      var n := |ys| - 1;
      assert (xs + ys)[..|xs + ys| - 1] == xs + ys[..n];
      SumConcat(xs, ys[..n]);
    }
  }

  lemma {:induction false} SumPermuted(xs: seq<int>, ys: seq<int>)
    requires multiset(xs) == multiset(ys)
    ensures Sum(xs) == Sum(ys)
  {
    if xs == [] {
      assert |multiset(ys)| == 0;
    } else {
      var n := |xs| - 1;
      assert xs == xs[..n] + [xs[n]];
      assert xs[n] in multiset(ys);
      var k :| 0 <= k < |ys| && ys[k] == xs[n];
      var rest := ys[..k] + ys[k + 1..];
      assert multiset(xs[..n]) == multiset(xs) - multiset{xs[n]};
      assert ys == ys[..k] + [ys[k]] + ys[k + 1..];
      assert multiset(rest) == multiset(ys) - multiset{ys[k]};
      SumPermuted(xs[..n], rest);
      SumConcat(ys[..k], ys[k + 1..]);
      SumSnoc(ys[..k], ys[k]);
      SumConcat(ys[..k] + [ys[k]], ys[k + 1..]);
    }
  }

  /** Two serial runs that credit an invoice the same amounts, in whatever order and
      with whatever else in between, leave it with the same paid amount. */
  lemma LedgerIgnoresOrder(s: Store, log: seq<Entry>, log': seq<Entry>, i: Id)
    requires SerialInv(s) && i in s.invoices
    requires Serial(s, log) && RequestsOk(log) && Serial(s, log') && RequestsOk(log')
    requires multiset(CreditsTo(log, i)) == multiset(CreditsTo(log', i))
    ensures i in SerialAfter(s, log).invoices && i in SerialAfter(s, log').invoices
    ensures SerialAfter(s, log).invoices[i].amountPaid == SerialAfter(s, log').invoices[i].amountPaid
  {
    SumPermuted(CreditsTo(log, i), CreditsTo(log', i));
    LedgerOf(s, log, i, Sum(CreditsTo(log, i)));
    LedgerOf(s, log', i, Sum(CreditsTo(log, i)));
  }

  lemma LedgerOf(s: Store, log: seq<Entry>, i: Id, total: int)
    requires SerialInv(s) && i in s.invoices && Serial(s, log) && RequestsOk(log) && total == Sum(CreditsTo(log, i))
    ensures i in SerialAfter(s, log).invoices
    ensures SerialAfter(s, log).invoices[i].amountPaid
         == Min(s.invoices[i].amountDue, s.invoices[i].amountPaid + total)
  {
    SerialKeeps(s, log);
    LedgerLaw(s, log, i);
  }

  // ---- Status and orders ----

  /** The entry wrote invoice i: it credited it, or inserted it. */
  predicate WritesInvoice(e: Entry, i: Id) {
    Credits(e, i) || (e.req.Bill? && e.outcome == Billed(true) && e.choice.newId == i)
  }

  /** The clock of a request that writes invoices. */
  function ClockOf(req: Request): int {
    match req
    case Capture(d) => d.now
    case Bill(u) => u.now
    case Order(_, _) => 0
  }

  /** The clock of the last entry that wrote invoice i, or `start` when none did. */
  function LastClock(log: seq<Entry>, i: Id, start: int): int {
    if log == [] then start
    else if WritesInvoice(log[|log| - 1], i) then ClockOf(log[|log| - 1].req)
    else LastClock(log[..|log| - 1], i, start)
  }

  /** The invoice's status is the verdict on its amounts and due date at this clock. */
  predicate IsVerdict(inv: Invoice, clock: int) {
    inv.status == ComputeInvoiceStatus(inv.amountDue, inv.amountPaid, inv.dueDate, clock)
  }

  /** The status a write leaves is the verdict at its clock, and nothing else touches an invoice. */
  lemma StatusAtWrite(s: Store, e: Entry, i: Id)
    requires SerialInv(s) && AloneOk(s, Flow(e.req, Fresh), e.choice)
    requires Alone(s, Flow(e.req, Fresh), e.choice).1 == e.outcome
    ensures var t := Alone(s, Flow(e.req, Fresh), e.choice).0;
            && (WritesInvoice(e, i) ==> i in t.invoices && IsVerdict(t.invoices[i], ClockOf(e.req)))
            && (!WritesInvoice(e, i) && i in t.invoices ==> i in s.invoices && t.invoices[i] == s.invoices[i])
  {
    match e.req
    case Capture(d) => CaptureAlone(s, d, e.choice);
    case Order(tenantId, iid) => OrderAlone(s, tenantId, iid, e.choice);
    case Bill(u) => BillAlone(s, u, e.choice);
  }

  /** In every reachable state of a serial run an invoice's status is the due-date verdict on
      its amounts at the clock of the last request that credited or inserted it. */
  lemma {:induction false} StatusIsLastVerdict(s: Store, log: seq<Entry>, i: Id, start: int)
    requires SerialInv(s) && Serial(s, log) && RequestsOk(log) && i in SerialAfter(s, log).invoices
    requires i in s.invoices ==> IsVerdict(s.invoices[i], start)
    ensures IsVerdict(SerialAfter(s, log).invoices[i], LastClock(log, i, start))
    decreases |log|
  {
    if log != [] {
      var before, e := log[..|log| - 1], log[|log| - 1];
      SerialKeeps(s, before);
      StatusAtWrite(SerialAfter(s, before), e, i);
      if !WritesInvoice(e, i) {
        StatusIsLastVerdict(s, before, i, start);
      }
    }
  }

  /** An order is refused exactly when the invoice is settled or not the tenant's, and
      otherwise asks for the whole outstanding balance, which is positive exactly when
      something is due. */
  lemma OrderAsksForOutstanding(s: Store, tenantId: string, iid: Id, c: Choice)
    requires SerialInv(s) && iid in s.invoices && s.invoices[iid].tenantId == tenantId
    requires AloneOk(s, Flow(Order(tenantId, iid), Fresh), c)
    ensures var (t, out) := Alone(s, Flow(Order(tenantId, iid), Fresh), c);
            var inv := s.invoices[iid];
            && (out == Refused <==> inv.amountPaid == inv.amountDue > 0)
            && (out != Refused ==>
                  && out == Ordered(c.newId)
                  && c.newId in t.payments
                  && t.payments[c.newId].amount == inv.amountDue - inv.amountPaid
                  && (t.payments[c.newId].amount > 0 <==> inv.amountDue > 0))
  {
    OrderAlone(s, tenantId, iid, c);
  }

  /** PAID is absorbing: nothing credits a settled invoice any further. */
  lemma PaidIsAbsorbing(s: Store, log: seq<Entry>, i: Id)
    requires SerialInv(s) && Serial(s, log) && RequestsOk(log)
    requires i in s.invoices && s.invoices[i].status == Paid
    ensures i in SerialAfter(s, log).invoices
    ensures var inv := SerialAfter(s, log).invoices[i];
            inv.status == Paid && inv.amountPaid == s.invoices[i].amountPaid == inv.amountDue
  {
    SerialKeeps(s, log);
  }
}
