/** The fee report: the fold over `$group` rows against the plain per-invoice sums, and
    what its outstanding figure means while orders and captures run. */
module Reports {
  import opened FeeCalc
  import opened Totals
  import opened CaptureProtocol
  import opened CaptureInvariants
  import opened CaptureSerial
  import opened CaptureLedger
  import Billing

  datatype GroupRow = GroupRow(status: InvoiceStatus, due: int, paid: int, count: nat)

  datatype Summary = Summary(billed: int, collected: int, outstanding: int, byStatus: map<InvoiceStatus, nat>)

  function Paids(invoices: map<Id, Invoice>): map<Id, int> {
    map i | i in invoices :: invoices[i].amountPaid
  }

  function WithStatus(invoices: map<Id, Invoice>, status: InvoiceStatus): set<Id> {
    set i | i in invoices && invoices[i].status == status
  }

  /** What `$group` by status returns: one row for each status that occurs, in any order. */
  ghost predicate IsGrouping(rows: seq<GroupRow>, invoices: map<Id, Invoice>) {
    && AreGroups(rows, invoices)
    && (forall i :: i in invoices ==> exists k :: 0 <= k < |rows| && rows[k].status == invoices[i].status)
  }

  ghost predicate AreGroups(rows: seq<GroupRow>, invoices: map<Id, Invoice>) {
    && (forall j, k :: 0 <= j < k < |rows| ==> rows[j].status != rows[k].status)
    && (forall k {:trigger IsGroup(rows[k], invoices)} :: 0 <= k < |rows| ==> IsGroup(rows[k], invoices))
  }

  ghost predicate IsGroup(row: GroupRow, invoices: map<Id, Invoice>) {
    var ids := WithStatus(invoices, row.status);
    && row.count == |ids| > 0
    && row.due == Total(Billing.Dues(invoices), ids)
    && row.paid == Total(Paids(invoices), ids)
  }

  /** The invoices of the first k groups. */
  function Folded(rows: seq<GroupRow>, invoices: map<Id, Invoice>, k: nat): set<Id>
    requires k <= |rows|
  {
    if k == 0 then {} else Folded(rows, invoices, k - 1) + WithStatus(invoices, rows[k - 1].status)
  }

  lemma {:induction false} FoldedIff(rows: seq<GroupRow>, invoices: map<Id, Invoice>, k: nat, i: Id)
    requires k <= |rows|
    ensures i in Folded(rows, invoices, k) <==>
              i in invoices && exists j :: 0 <= j < k && rows[j].status == invoices[i].status
  {
    if k > 0 {
      FoldedIff(rows, invoices, k - 1, i);
    }
  }

  lemma FoldedApart(rows: seq<GroupRow>, invoices: map<Id, Invoice>, k: nat)
    requires k < |rows| && forall j :: 0 <= j < k ==> rows[j].status != rows[k].status
    ensures Folded(rows, invoices, k) <= invoices.Keys
    ensures Folded(rows, invoices, k) !! WithStatus(invoices, rows[k].status)
  {
    forall i | i in Folded(rows, invoices, k)
      ensures i in invoices && i !in WithStatus(invoices, rows[k].status)
    {
      FoldedIff(rows, invoices, k, i);
    }
  }

  function DueUpTo(rows: seq<GroupRow>, k: nat): int
    requires k <= |rows|
  {
    if k == 0 then 0 else DueUpTo(rows, k - 1) + rows[k - 1].due
  }

  function PaidUpTo(rows: seq<GroupRow>, k: nat): int
    requires k <= |rows|
  {
    if k == 0 then 0 else PaidUpTo(rows, k - 1) + rows[k - 1].paid
  }

  /** Folding the first k groups sums the invoices they hold. */
  lemma {:induction false} FoldSumsInvoices(rows: seq<GroupRow>, invoices: map<Id, Invoice>, k: nat)
    requires AreGroups(rows, invoices) && k <= |rows|
    ensures Folded(rows, invoices, k) <= invoices.Keys
    ensures DueUpTo(rows, k) == Total(Billing.Dues(invoices), Folded(rows, invoices, k))
    ensures PaidUpTo(rows, k) == Total(Paids(invoices), Folded(rows, invoices, k))
  {
    if k > 0 {
      FoldSumsInvoices(rows, invoices, k - 1);
      FoldedApart(rows, invoices, k - 1);
      assert IsGroup(rows[k - 1], invoices);
      GroupAdds(rows[k - 1], invoices, Folded(rows, invoices, k - 1));
    }
  }

  lemma GroupAdds(row: GroupRow, invoices: map<Id, Invoice>, ids: set<Id>)
    requires IsGroup(row, invoices) && ids <= invoices.Keys && ids !! WithStatus(invoices, row.status)
    ensures Total(Billing.Dues(invoices), ids + WithStatus(invoices, row.status))
         == Total(Billing.Dues(invoices), ids) + row.due
    ensures Total(Paids(invoices), ids + WithStatus(invoices, row.status)) == Total(Paids(invoices), ids) + row.paid
  {
    TotalUnion(Billing.Dues(invoices), ids, WithStatus(invoices, row.status));
    TotalUnion(Paids(invoices), ids, WithStatus(invoices, row.status));
  }

  /** The summary of a collection, row by row and without any grouping. */
  ghost predicate IsSummary(r: Summary, invoices: map<Id, Invoice>) {
    && r.billed == Total(Billing.Dues(invoices), invoices.Keys)
    && r.collected == Total(Paids(invoices), invoices.Keys)
    && r.outstanding == r.billed - r.collected
    && (forall st :: st in r.byStatus <==> WithStatus(invoices, st) != {})
    && (forall st :: st in r.byStatus ==> r.byStatus[st] == |WithStatus(invoices, st)|)
  }

  /** The breakdown after k rows. */
  ghost predicate Counts(byStatus: map<InvoiceStatus, nat>, rows: seq<GroupRow>, k: nat)
    requires k <= |rows|
  {
    && (forall st :: st in byStatus ==> exists j :: 0 <= j < k && rows[j].status == st)
    && (forall j :: 0 <= j < k ==> rows[j].status in byStatus && byStatus[rows[j].status] == rows[j].count)
  }

  lemma CountsAreStatuses(byStatus: map<InvoiceStatus, nat>, rows: seq<GroupRow>, invoices: map<Id, Invoice>)
    requires IsGrouping(rows, invoices) && Counts(byStatus, rows, |rows|)
    ensures forall st :: st in byStatus <==> WithStatus(invoices, st) != {}
    ensures forall st :: st in byStatus ==> byStatus[st] == |WithStatus(invoices, st)|
  {
    forall st | st in byStatus
      ensures byStatus[st] == |WithStatus(invoices, st)| > 0
    {
      var j :| 0 <= j < |rows| && rows[j].status == st;
      assert IsGroup(rows[j], invoices);
    }
    forall st | WithStatus(invoices, st) != {}
      ensures st in byStatus
    {
      var i :| i in WithStatus(invoices, st);
      assert i in invoices;
    }
  }

  lemma CountsStep(byStatus: map<InvoiceStatus, nat>, rows: seq<GroupRow>, k: nat)
    requires k < |rows| && Counts(byStatus, rows, k)
    requires forall j :: 0 <= j < k ==> rows[j].status != rows[k].status
    ensures Counts(byStatus[rows[k].status := rows[k].count], rows, k + 1)
  {
    forall st | st in byStatus
      ensures exists j :: 0 <= j < k + 1 && rows[j].status == st
    {
      var j :| 0 <= j < k && rows[j].status == st;
      assert 0 <= j < k + 1;
    }
  }

  lemma AllFolded(rows: seq<GroupRow>, invoices: map<Id, Invoice>)
    requires IsGrouping(rows, invoices)
    ensures Folded(rows, invoices, |rows|) == invoices.Keys
  {
    forall i
      ensures i in Folded(rows, invoices, |rows|) <==> i in invoices
    {
      FoldedIff(rows, invoices, |rows|, i);
    }
  }

  /** `feesSummary` over the rows the aggregate returned, whatever their order. */
  method FeesSummary(rows: seq<GroupRow>, ghost invoices: map<Id, Invoice>) returns (r: Summary)
    requires IsGrouping(rows, invoices)
    ensures IsSummary(r, invoices)
  {
    var billed, collected := 0, 0;
    var byStatus: map<InvoiceStatus, nat> := map[];
    for k := 0 to |rows|
      invariant billed == DueUpTo(rows, k) && collected == PaidUpTo(rows, k)
      invariant Counts(byStatus, rows, k)
    {
      CountsStep(byStatus, rows, k);
      billed := billed + rows[k].due;
      collected := collected + rows[k].paid;
      byStatus := byStatus[rows[k].status := rows[k].count];
    }
    FoldSumsInvoices(rows, invoices, |rows|);
    AllFolded(rows, invoices);
    CountsAreStatuses(byStatus, rows, invoices);
    r := Summary(billed, collected, billed - collected, byStatus);
  }

  /** The status counts add up to the number of invoices. */
  lemma CountsPartition(invoices: map<Id, Invoice>)
    ensures |WithStatus(invoices, Pending)| + |WithStatus(invoices, Partial)| + |WithStatus(invoices, Paid)|
          + |WithStatus(invoices, Overdue)| == |invoices|
  {
    var a, b := WithStatus(invoices, Pending), WithStatus(invoices, Partial);
    var c, d := WithStatus(invoices, Paid), WithStatus(invoices, Overdue);
    assert invoices.Keys == (a + b) + (c + d) by {
      forall i | i in invoices
        ensures i in (a + b) + (c + d)
      {
      }
    }
    assert |invoices| == |invoices.Keys|;
    assert |a + b| == |a| + |b|;
    assert |c + d| == |c| + |d|;
    assert |(a + b) + (c + d)| == |a + b| + |c + d|;
  }

  // ---- Outstanding ----

  /** The tenant's invoices: what the aggregate sees behind its `$match`. */
  function OfTenant(s: Store, tenantId: string): map<Id, Invoice> {
    map i | i in s.invoices && s.invoices[i].tenantId == tenantId :: s.invoices[i]
  }

  function Balances(invoices: map<Id, Invoice>): map<Id, int> {
    map i | i in invoices :: invoices[i].amountDue - invoices[i].amountPaid
  }

  ghost function Outstanding(s: Store, tenantId: string): int {
    Total(Balances(OfTenant(s, tenantId)), OfTenant(s, tenantId).Keys)
  }

  /** The report's figure is the sum of the balances, and never negative. */
  lemma SummaryOutstanding(s: Store, tenantId: string, r: Summary)
    requires StoreInv(s) && IsSummary(r, OfTenant(s, tenantId))
    ensures r.outstanding == Outstanding(s, tenantId) >= 0
  {
    var invoices := OfTenant(s, tenantId);
    TotalDifference(Billing.Dues(invoices), Paids(invoices), Balances(invoices), invoices.Keys);
    forall i | i in invoices
      ensures Balances(invoices)[i] >= 0
    {
      assert InvoiceOk(s.invoices[i]);
    }
    TotalBounds(Balances(invoices), invoices.Keys);
  }

  /** The invoices an order can still be placed for. */
  function Unpaid(s: Store, tenantId: string): set<Id> {
    set i | i in s.invoices && s.invoices[i].tenantId == tenantId && s.invoices[i].status != Paid
  }

  /** It is also what orders for every unpaid invoice would ask for, together. */
  lemma OutstandingIsWhatOrdersAsk(s: Store, tenantId: string, asked: map<Id, int>)
    requires SerialInv(s) && asked.Keys == Unpaid(s, tenantId)
    requires forall i :: i in asked ==>
               exists c :: AloneOk(s, Flow(Order(tenantId, i), Fresh), c)
                        && AsksFor(Alone(s, Flow(Order(tenantId, i), Fresh), c), asked[i])
    ensures Outstanding(s, tenantId) == Total(asked, asked.Keys)
  {
    var invoices := OfTenant(s, tenantId);
    var settled := invoices.Keys - asked.Keys;
    forall i | i in asked
      ensures asked[i] == Balances(invoices)[i]
    {
      var c :| AloneOk(s, Flow(Order(tenantId, i), Fresh), c)
            && AsksFor(Alone(s, Flow(Order(tenantId, i), Fresh), c), asked[i]);
      OrderAsksForOutstanding(s, tenantId, i, c);
    }
    TotalSame(Balances(invoices), asked, asked.Keys);
    forall i | i in settled
      ensures Balances(invoices)[i] == 0
    {
      assert InSync(s.invoices[i]);
    }
    ZeroTotal(Balances(invoices), settled);
    TotalUnion(Balances(invoices), asked.Keys, settled);
    assert asked.Keys + settled == invoices.Keys;
  }

  /** The order placed asks for this amount. */
  ghost predicate AsksFor(r: (Store, Pc), amount: int) {
    r.1.Ordered? && r.1.paymentId in r.0.payments && r.0.payments[r.1.paymentId].amount == amount
  }

  lemma {:induction false} ZeroTotal(m: map<Id, int>, ids: set<Id>)
    requires ids <= m.Keys && forall i :: i in ids ==> m[i] == 0
    ensures Total(m, ids) == 0
    decreases ids
  {
    if ids != {} {
      var i :| i in ids;
      TotalRemove(m, ids, i);
      ZeroTotal(m, ids - {i});
    }
  }

  /** What a capture that ended so credited, at most, to an invoice of the tenant. */
  function CreditedBy(s: Store, tenantId: string, d: Delivery, out: Pc): int {
    if out.Done? && out.applied && out.about.Some? && out.about.value in s.invoices
       && s.invoices[out.about.value].tenantId == tenantId
    then
      var inv := s.invoices[out.about.value];
      Min(inv.amountDue - inv.amountPaid, d.amount)
    else 0
  }

  function BalanceOf(s: Store, tenantId: string, i: Id): int {
    if i in s.invoices && s.invoices[i].tenantId == tenantId
    then s.invoices[i].amountDue - s.invoices[i].amountPaid else 0
  }

  /** The figure follows the one invoice that changes. */
  lemma OutstandingFollows(s: Store, t: Store, tenantId: string, i: Id)
    requires t.invoices.Keys == s.invoices.Keys
    requires forall j :: j in s.invoices && j != i ==> t.invoices[j] == s.invoices[j]
    requires i in s.invoices ==> t.invoices[i].tenantId == s.invoices[i].tenantId
    ensures Outstanding(t, tenantId) - Outstanding(s, tenantId) == BalanceOf(t, tenantId, i) - BalanceOf(s, tenantId, i)
  {
    var a, b := OfTenant(s, tenantId), OfTenant(t, tenantId);
    assert a.Keys == b.Keys;
    if i in a.Keys {
      TotalOneChanged(Balances(a), Balances(b), a.Keys, i);
    } else {
      TotalSame(Balances(a), Balances(b), a.Keys);
    }
  }

  /** Each capture lowers its tenant's outstanding figure by exactly what it credits. */
  lemma CaptureLowersOutstanding(s: Store, tenantId: string, d: Delivery, c: Choice)
    requires SerialInv(s) && AloneOk(s, Flow(Capture(d), Fresh), c)
    ensures var (t, out) := Alone(s, Flow(Capture(d), Fresh), c);
            Outstanding(t, tenantId) == Outstanding(s, tenantId) - CreditedBy(s, tenantId, d, out)
  {
    var (t, out) := Alone(s, Flow(Capture(d), Fresh), c);
    CaptureAlone(s, d, c);
    if t.invoices == s.invoices {
      assert OfTenant(s, tenantId) == OfTenant(t, tenantId);
    } else {
      OutstandingFollows(s, t, tenantId, out.about.value);
    }
  }
}
