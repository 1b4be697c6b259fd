/** What one `generateInvoices` run does to the store, said without its loops, and what
    follows: idempotence, growth by exactly the missing keys, and conservation. */
module Billing {
  import opened Wrappers
  import opened Text
  import opened FeeCalc
  import opened Totals
  import opened CaptureProtocol
  import opened CaptureInvariants

  /** A student's share of a plan. */
  datatype Key = Key(student: Id, title: string)

  datatype Plan = Plan(id: Id, batchId: Option<Id>, installments: seq<Installment>)

  predicate IsBillOf(inv: Invoice, tenantId: string, planId: Id) {
    inv.tenantId == tenantId && inv.feePlanId == planId
  }

  function KeyOf(inv: Invoice): Key {
    Key(inv.studentId, inv.title)
  }

  function KeysOf(invoices: map<Id, Invoice>, tenantId: string, planId: Id): set<Key> {
    set i | i in invoices && IsBillOf(invoices[i], tenantId, planId) :: KeyOf(invoices[i])
  }

  /** The keys a run asks for. */
  function Wanted(students: seq<Id>, parts: seq<Installment>): set<Key> {
    set x, k | 0 <= x < |students| && 0 <= k < |parts| :: Key(students[x], parts[k].title)
  }

  /** The first installment with a label: later ones of the same label find its invoice. */
  function PartOf(parts: seq<Installment>, title: string): Option<Installment> {
    if parts == [] then None
    else if parts[0].title == title then Some(parts[0])
    else PartOf(parts[1..], title)
  }

  lemma {:induction false} PartOfFirst(parts: seq<Installment>, k: nat)
    requires k < |parts| && forall j :: 0 <= j < k ==> parts[j].title != parts[k].title
    ensures PartOf(parts, parts[k].title) == Some(parts[k])
  {
    if k > 0 {
      PartOfFirst(parts[1..], k - 1);
    }
  }

  lemma {:induction false} PartOfIsIn(parts: seq<Installment>, title: string)
    requires PartOf(parts, title).Some?
    ensures exists k :: IsFirstWith(parts, k, title) && parts[k] == PartOf(parts, title).value
  {
    if parts[0].title == title {
      assert IsFirstWith(parts, 0, title);
    } else {
      PartOfIsIn(parts[1..], title);
      var k :| IsFirstWith(parts[1..], k, title) && parts[1..][k] == PartOf(parts[1..], title).value;
      assert IsFirstWith(parts, k + 1, title);
    }
  }

  predicate IsFirstWith(parts: seq<Installment>, k: int, title: string) {
    0 <= k < |parts| && parts[k].title == title && forall j :: 0 <= j < k ==> parts[j].title != title
  }

  /** The invoice a missing key gets. */
  predicate IsNewBill(inv: Invoice, tenantId: string, plan: Plan, now: int) {
    var part := PartOf(plan.installments, inv.title);
    part.Some? && inv == NewInvoice(UpsertOf(tenantId, plan.id, inv.studentId, part.value, now))
  }

  function UpsertOf(tenantId: string, planId: Id, student: Id, part: Installment, now: int): Upsert {
    Upsert(tenantId, student, planId, part.title, part.amount, part.dueDate, now)
  }

  predicate KeepsBills(before: map<Id, Invoice>, after: map<Id, Invoice>) {
    forall i :: i in before ==> i in after && after[i] == before[i]
  }

  /** The effect of having upserted the keys `done` so far. */
  ghost predicate Progress(s: Store, t: Store, tenantId: string, plan: Plan, now: int, done: set<Key>, created: nat) {
    && t.payments == s.payments
    && KeepsBills(s.invoices, t.invoices)
    && KeysOf(t.invoices, tenantId, plan.id) == KeysOf(s.invoices, tenantId, plan.id) + done
    && created == |done - KeysOf(s.invoices, tenantId, plan.id)|
    && |t.invoices| == |s.invoices| + created
    && NewBills(s, t, tenantId, plan, now)
  }

  /** The whole effect of a run. */
  ghost predicate Generated(s: Store, t: Store, tenantId: string, plan: Plan, students: seq<Id>, now: int,
                            created: nat) {
    Progress(s, t, tenantId, plan, now, Wanted(students, plan.installments), created)
  }

  /** Each new row is the bill of a key nobody had, and no two have the same key. */
  ghost predicate NewBills(s: Store, t: Store, tenantId: string, plan: Plan, now: int) {
    && (forall i :: i in t.invoices && i !in s.invoices ==>
          && IsNewBill(t.invoices[i], tenantId, plan, now)
          && KeyOf(t.invoices[i]) !in KeysOf(s.invoices, tenantId, plan.id))
    && (forall i, j :: i in t.invoices && i !in s.invoices && j in t.invoices && j !in s.invoices && i != j ==>
          KeyOf(t.invoices[i]) != KeyOf(t.invoices[j]))
  }

  lemma KeyIsIn(invoices: map<Id, Invoice>, i: Id)
    requires i in invoices
    ensures KeyOf(invoices[i]) in KeysOf(invoices, invoices[i].tenantId, invoices[i].feePlanId)
  {
  }

  /** Field by field, a new row: it is the tenant's, a listed student's and the plan's, it has
      the label, amount and due date of the first installment with its label, nothing is paid,
      and its status is the verdict on that. */
  ghost predicate BillsInstallment(inv: Invoice, tenantId: string, plan: Plan, students: seq<Id>, now: int) {
    && inv.tenantId == tenantId && inv.feePlanId == plan.id && inv.studentId in students
    && inv.amountPaid == 0 && inv.receiptUrl == None
    && exists k :: IsFirstWith(plan.installments, k, inv.title)
                && inv.amountDue == plan.installments[k].amount && inv.dueDate == plan.installments[k].dueDate
                && inv.status == ComputeInvoiceStatus(plan.installments[k].amount, 0, plan.installments[k].dueDate, now)
  }

  lemma NewRowFields(s: Store, t: Store, tenantId: string, plan: Plan, students: seq<Id>, now: int, created: nat)
    requires Generated(s, t, tenantId, plan, students, now, created)
    ensures forall i :: i in t.invoices && i !in s.invoices ==>
              BillsInstallment(t.invoices[i], tenantId, plan, students, now)
  {
    forall i | i in t.invoices && i !in s.invoices
      ensures BillsInstallment(t.invoices[i], tenantId, plan, students, now)
    {
      var inv := t.invoices[i];
      assert IsNewBill(inv, tenantId, plan, now);
      PartOfIsIn(plan.installments, inv.title);
      KeyIsIn(t.invoices, i);
      assert KeyOf(inv) in Wanted(students, plan.installments);
    }
  }

  // ---- One upsert ----

  predicate HasKey(invoices: map<Id, Invoice>, u: Upsert) {
    exists i :: i in invoices && SameKey(invoices[i], NewInvoice(u))
  }

  lemma HasKeyIff(invoices: map<Id, Invoice>, u: Upsert)
    ensures HasKey(invoices, u) <==> Key(u.studentId, u.title) in KeysOf(invoices, u.tenantId, u.feePlanId)
  {
    if Key(u.studentId, u.title) in KeysOf(invoices, u.tenantId, u.feePlanId) {
      var i :| i in invoices && IsBillOf(invoices[i], u.tenantId, u.feePlanId)
            && KeyOf(invoices[i]) == Key(u.studentId, u.title);
      assert SameKey(invoices[i], NewInvoice(u));
    }
  }

  lemma KeysAfterInsert(invoices: map<Id, Invoice>, newId: Id, inv: Invoice)
    requires newId !in invoices
    ensures KeysOf(invoices[newId := inv], inv.tenantId, inv.feePlanId)
         == KeysOf(invoices, inv.tenantId, inv.feePlanId) + {KeyOf(inv)}
  {
    var after := invoices[newId := inv];
    forall key | key in KeysOf(invoices, inv.tenantId, inv.feePlanId)
      ensures key in KeysOf(after, inv.tenantId, inv.feePlanId)
    {
      var i :| i in invoices && IsBillOf(invoices[i], inv.tenantId, inv.feePlanId) && KeyOf(invoices[i]) == key;
      assert after[i] == invoices[i];
    }
    assert after[newId] == inv;
  }

  lemma DoneSeen(had: set<Key>, done: set<Key>, key: Key)
    requires key in had + done
    ensures had + (done + {key}) == had + done && |done + {key} - had| == |done - had|
  {
    assert done + {key} - had == done - had;
  }

  lemma DoneNew(had: set<Key>, done: set<Key>, key: Key)
    requires key !in had + done
    ensures had + (done + {key}) == had + done + {key} && |done + {key} - had| == |done - had| + 1
  {
    assert done + {key} - had == (done - had) + {key};
  }

  /** An upsert that finds its key leaves the progress as it was. */
  lemma SeenKeyStep(s: Store, a: Store, tenantId: string, plan: Plan, now: int, done: set<Key>, created: nat, key: Key)
    requires Progress(s, a, tenantId, plan, now, done, created)
    requires key in KeysOf(a.invoices, tenantId, plan.id)
    ensures Progress(s, a, tenantId, plan, now, done + {key}, created)
  {
    DoneSeen(KeysOf(s.invoices, tenantId, plan.id), done, key);
  }

  lemma NewBillsInsert(s: Store, a: Store, tenantId: string, plan: Plan, now: int, newId: Id, inv: Invoice)
    requires NewBills(s, a, tenantId, plan, now) && newId !in a.invoices
    requires IsBillOf(inv, tenantId, plan.id) && IsNewBill(inv, tenantId, plan, now)
    requires KeyOf(inv) !in KeysOf(a.invoices, tenantId, plan.id)
    requires KeepsBills(s.invoices, a.invoices)
    ensures NewBills(s, a.(invoices := a.invoices[newId := inv]), tenantId, plan, now)
  {
    forall i | i in a.invoices && i !in s.invoices
      ensures KeyOf(a.invoices[i]) != KeyOf(inv)
    {
      assert IsNewBill(a.invoices[i], tenantId, plan, now);
      KeyIsIn(a.invoices, i);
    }
    forall i | i in s.invoices && IsBillOf(s.invoices[i], tenantId, plan.id)
      ensures KeyOf(s.invoices[i]) != KeyOf(inv)
    {
      KeyIsIn(a.invoices, i);
    }
  }

  /** The label of a missing key has not been met before in the plan. */
  lemma MissingIsFirst(s: Store, a: Store, tenantId: string, plan: Plan, now: int, done: set<Key>, created: nat,
                       student: Id, k: nat, inv: Invoice)
    requires Progress(s, a, tenantId, plan, now, done, created) && k < |plan.installments|
    requires forall j :: 0 <= j < k ==> Key(student, plan.installments[j].title) in done
    requires inv == NewInvoice(UpsertOf(tenantId, plan.id, student, plan.installments[k], now))
    requires KeyOf(inv) !in KeysOf(a.invoices, tenantId, plan.id)
    ensures IsBillOf(inv, tenantId, plan.id) && IsNewBill(inv, tenantId, plan, now)
  {
    PartOfFirst(plan.installments, k);
  }

  /** An upsert that inserts adds one key and one row. */
  lemma NewKeyStep(s: Store, a: Store, tenantId: string, plan: Plan, now: int, done: set<Key>, created: nat,
                   inv: Invoice, newId: Id)
    requires Progress(s, a, tenantId, plan, now, done, created)
    requires IsBillOf(inv, tenantId, plan.id) && IsNewBill(inv, tenantId, plan, now)
    requires KeyOf(inv) !in KeysOf(a.invoices, tenantId, plan.id) && newId !in a.invoices
    ensures Progress(s, a.(invoices := a.invoices[newId := inv]), tenantId, plan, now, done + {KeyOf(inv)}, created + 1)
  {
    DoneNew(KeysOf(s.invoices, tenantId, plan.id), done, KeyOf(inv));
    KeysAfterInsert(a.invoices, newId, inv);
    NewBillsInsert(s, a, tenantId, plan, now, newId, inv);
    RowsAfterInsert(s.invoices, a.invoices, newId, inv);
  }

  lemma RowsAfterInsert(before: map<Id, Invoice>, invoices: map<Id, Invoice>, newId: Id, inv: Invoice)
    requires newId !in invoices && KeepsBills(before, invoices)
    ensures KeepsBills(before, invoices[newId := inv]) && |invoices[newId := inv]| == |invoices| + 1
  {
    assert invoices[newId := inv].Keys == invoices.Keys + {newId};
  }

  /** One upsert of the loops: key k of a student whose earlier keys are done. */
  lemma UpsertStep(s: Store, a: Store, b: Store, tenantId: string, plan: Plan, now: int, done: set<Key>, created: nat,
                   student: Id, k: nat, u: Upsert, isNew: bool, newId: Id)
    requires Progress(s, a, tenantId, plan, now, done, created) && k < |plan.installments|
    requires OneStudent(student, plan.installments, k) <= done
    requires u == UpsertOf(tenantId, plan.id, student, plan.installments[k], now)
    requires isNew <==> !HasKey(a.invoices, u)
    requires newId !in a.invoices && b == if isNew then a.(invoices := a.invoices[newId := NewInvoice(u)]) else a
    ensures Progress(s, b, tenantId, plan, now, done + {Key(student, plan.installments[k].title)},
                     created + if isNew then 1 else 0)
  {
    HasKeyIff(a.invoices, u);
    if isNew {
      forall j | 0 <= j < k
        ensures Key(student, plan.installments[j].title) in done
      {
        assert Key(student, plan.installments[j].title) in OneStudent(student, plan.installments, k);
      }
      MissingIsFirst(s, a, tenantId, plan, now, done, created, student, k, NewInvoice(u));
      NewKeyStep(s, a, tenantId, plan, now, done, created, NewInvoice(u), newId);
    } else {
      SeenKeyStep(s, a, tenantId, plan, now, done, created, Key(student, plan.installments[k].title));
    }
  }

  /** The first k keys of one student. */
  function OneStudent(student: Id, parts: seq<Installment>, k: nat): set<Key>
    requires k <= |parts|
  {
    set j | 0 <= j < k :: Key(student, parts[j].title)
  }

  lemma OneStudentSnoc(before: set<Key>, student: Id, parts: seq<Installment>, k: nat)
    requires k < |parts|
    ensures before + OneStudent(student, parts, k + 1)
         == before + OneStudent(student, parts, k) + {Key(student, parts[k].title)}
  {
    assert OneStudent(student, parts, k + 1) == OneStudent(student, parts, k) + {Key(student, parts[k].title)};
  }

  lemma WantedSnoc(students: seq<Id>, parts: seq<Installment>, x: nat)
    requires x < |students|
    ensures Wanted(students[..x + 1], parts) == Wanted(students[..x], parts) + OneStudent(students[x], parts, |parts|)
  {
    var before, one := students[..x], OneStudent(students[x], parts, |parts|);
    assert students[..x + 1] == before + [students[x]];
    forall key | key in Wanted(before, parts)
      ensures key in Wanted(students[..x + 1], parts)
    {
      var y, k :| 0 <= y < |before| && 0 <= k < |parts| && key == Key(before[y], parts[k].title);
      assert students[..x + 1][y] == before[y];
    }
    forall key | key in one
      ensures key in Wanted(students[..x + 1], parts)
    {
      var k :| 0 <= k < |parts| && key == Key(students[x], parts[k].title);
      assert students[..x + 1][x] == students[x];
    }
    forall key | key in Wanted(students[..x + 1], parts)
      ensures key in Wanted(before, parts) + one
    {
      var y, k :| 0 <= y < x + 1 && 0 <= k < |parts| && key == Key(students[..x + 1][y], parts[k].title);
      if y < x {
        assert before[y] == students[y];
      } else {
        assert key in one;
      }
    }
  }

  /** A run that has processed nobody has changed nothing. */
  lemma NoProgress(s: Store, tenantId: string, plan: Plan, now: int)
    ensures Progress(s, s, tenantId, plan, now, {}, 0)
  {
  }

  // ---- Idempotence ----

  /** Keys are never lost, whatever runs in between. */
  lemma KeysPersist(s: Store, t: Store, tenantId: string, planId: Id)
    requires Evolves(s, t)
    ensures KeysOf(s.invoices, tenantId, planId) <= KeysOf(t.invoices, tenantId, planId)
  {
    forall key | key in KeysOf(s.invoices, tenantId, planId)
      ensures key in KeysOf(t.invoices, tenantId, planId)
    {
      var i :| i in s.invoices && IsBillOf(s.invoices[i], tenantId, planId) && KeyOf(s.invoices[i]) == key;
      assert SameInvoice(s.invoices[i], t.invoices[i]);
    }
  }

  lemma WantedMonotone(a: seq<Id>, b: seq<Id>, parts: seq<Installment>)
    requires forall x :: x in a ==> x in b
    ensures Wanted(a, parts) <= Wanted(b, parts)
  {
    forall key | key in Wanted(a, parts)
      ensures key in Wanted(b, parts)
    {
      var x, k :| 0 <= x < |a| && 0 <= k < |parts| && key == Key(a[x], parts[k].title);
      assert a[x] in a;
    }
  }

  lemma NothingNew(s: Store, t: Store, tenantId: string, plan: Plan, students: seq<Id>, now: int, created: nat)
    requires Generated(s, t, tenantId, plan, students, now, created)
    requires Wanted(students, plan.installments) <= KeysOf(s.invoices, tenantId, plan.id)
    ensures created == 0 && t == s
  {
    assert Wanted(students, plan.installments) - KeysOf(s.invoices, tenantId, plan.id) == {};
    forall i | i in t.invoices
      ensures i in s.invoices
    {
      if i !in s.invoices {
        KeyIsIn(t.invoices, i);
      }
    }
    assert t.invoices == s.invoices;
  }

  /** A second run with no new students creates nothing and changes no row, whatever
      captures, orders and other runs happened since the first. */
  lemma RerunIsNoOp(s: Store, t: Store, u: Store, v: Store, tenantId: string, plan: Plan,
                    students: seq<Id>, again: seq<Id>, now: int, later: int, created: nat, created': nat)
    requires Generated(s, t, tenantId, plan, students, now, created)
    requires Evolves(t, u)
    requires Generated(u, v, tenantId, plan, again, later, created') && forall x :: x in again ==> x in students
    ensures created' == 0 && v == u
  {
    KeysPersist(t, u, tenantId, plan.id);
    WantedMonotone(again, students, plan.installments);
    NothingNew(u, v, tenantId, plan, again, later, created');
  }

  /** A run on a larger list creates exactly the missing keys. */
  lemma LargerListAddsMissing(s: Store, t: Store, v: Store, tenantId: string, plan: Plan,
                              students: seq<Id>, more: seq<Id>, now: int, later: int, created: nat, created': nat)
    requires Generated(s, t, tenantId, plan, students, now, created)
    requires Generated(t, v, tenantId, plan, students + more, later, created')
    ensures created + created' == |Wanted(students + more, plan.installments) - KeysOf(s.invoices, tenantId, plan.id)|
    ensures KeysOf(v.invoices, tenantId, plan.id)
         == KeysOf(s.invoices, tenantId, plan.id) + Wanted(students + more, plan.installments)
  {
    WantedMonotone(students, students + more, plan.installments);
    MissingKeys(KeysOf(s.invoices, tenantId, plan.id), Wanted(students, plan.installments),
                Wanted(students + more, plan.installments));
  }

  lemma MissingKeys(had: set<Key>, first: set<Key>, all: set<Key>)
    requires first <= all
    ensures |first - had| + |all - (had + first)| == |all - had|
    ensures had + first + all == had + all
  {
    assert all - had == (first - had) + (all - (had + first));
  }

  // ---- Conservation ----

  function Dues(invoices: map<Id, Invoice>): map<Id, int> {
    map i | i in invoices :: invoices[i].amountDue
  }

  /** The invoices of one student for one plan. */
  function BillsOf(invoices: map<Id, Invoice>, tenantId: string, planId: Id, student: Id): set<Id> {
    set i | i in invoices && IsBillOf(invoices[i], tenantId, planId) && invoices[i].studentId == student
  }

  predicate DistinctTitles(parts: seq<Installment>) {
    forall j, k :: 0 <= j < k < |parts| ==> parts[j].title != parts[k].title
  }

  lemma SplitTitlesDistinct(parts: seq<Installment>, total: int, count: nat, first: int, intervalDays: int)
    requires count >= 1 && IsEqualSplit(parts, total, count, first, intervalDays)
    ensures DistinctTitles(parts)
  {
    forall j, k | 0 <= j < k < |parts|
      ensures parts[j].title != parts[k].title
    {
      if parts[j].title == parts[k].title {
        LabelInjective(j, k);
      }
    }
  }

  /** Rows `ids` are one bill per installment, and nothing else. */
  ghost predicate BillEach(invoices: map<Id, Invoice>, ids: set<Id>, parts: seq<Installment>) {
    && ids <= invoices.Keys
    && (forall i, j :: i in ids && j in ids && i != j ==> invoices[i].title != invoices[j].title)
    && (forall i :: i in ids ==> BillsSome(invoices[i], parts))
    && (forall k :: 0 <= k < |parts| ==> HasBill(invoices, ids, parts[k].title))
  }

  predicate BillsSome(inv: Invoice, parts: seq<Installment>) {
    exists k :: 0 <= k < |parts| && inv.title == parts[k].title && inv.amountDue == parts[k].amount
  }

  predicate HasBill(invoices: map<Id, Invoice>, ids: set<Id>, title: string)
    requires ids <= invoices.Keys
  {
    exists i :: i in ids && invoices[i].title == title
  }

  lemma BillEachButLast(invoices: map<Id, Invoice>, ids: set<Id>, parts: seq<Installment>, i: Id)
    requires BillEach(invoices, ids, parts) && DistinctTitles(parts) && parts != []
    requires i in ids && invoices[i].title == parts[|parts| - 1].title
    ensures BillEach(invoices, ids - {i}, parts[..|parts| - 1])
    ensures invoices[i].amountDue == parts[|parts| - 1].amount
  {
    var before := parts[..|parts| - 1];
    forall j | j in ids - {i}
      ensures BillsSome(invoices[j], before)
    {
      var k :| 0 <= k < |parts| && invoices[j].title == parts[k].title && invoices[j].amountDue == parts[k].amount;
      assert before[k] == parts[k];
    }
    forall k | 0 <= k < |before|
      ensures HasBill(invoices, ids - {i}, before[k].title)
    {
      assert HasBill(invoices, ids, parts[k].title);
      var j :| j in ids && invoices[j].title == parts[k].title;
      assert j in ids - {i};
    }
    assert BillsSome(invoices[i], parts);
  }

  lemma NoPartsNoBills(invoices: map<Id, Invoice>, ids: set<Id>)
    requires BillEach(invoices, ids, [])
    ensures ids == {}
  {
    var none: seq<Installment> := [];
    assert forall inv: Invoice :: !BillsSome(inv, none);
  }

  lemma AmountsButLast(parts: seq<Installment>)
    requires parts != []
    ensures Sum(Amounts(parts)) == Sum(Amounts(parts[..|parts| - 1])) + parts[|parts| - 1].amount
  {
    assert Amounts(parts)[..|parts| - 1] == Amounts(parts[..|parts| - 1]);
  }

  /** One bill per installment adds up to the plan. */
  lemma {:induction false} BillsAddUp(invoices: map<Id, Invoice>, ids: set<Id>, parts: seq<Installment>)
    requires BillEach(invoices, ids, parts) && DistinctTitles(parts)
    ensures Total(Dues(invoices), ids) == Sum(Amounts(parts))
    decreases |parts|
  {
    if parts == [] {
      NoPartsNoBills(invoices, ids);
    } else {
      var n := |parts| - 1;
      assert HasBill(invoices, ids, parts[n].title);
      var i :| i in ids && invoices[i].title == parts[n].title;
      BillEachButLast(invoices, ids, parts, i);
      BillsAddUp(invoices, ids - {i}, parts[..n]);
      TotalRemove(Dues(invoices), ids, i);
      AmountsButLast(parts);
    }
  }

  /** Where nobody had a bill for the plan, every row of it is new. */
  lemma OnlyNewRows(s: Store, t: Store, tenantId: string, plan: Plan, now: int, i: Id)
    requires NewBills(s, t, tenantId, plan, now) && KeysOf(s.invoices, tenantId, plan.id) == {}
    requires KeepsBills(s.invoices, t.invoices)
    requires i in t.invoices && IsBillOf(t.invoices[i], tenantId, plan.id)
    ensures i !in s.invoices && IsNewBill(t.invoices[i], tenantId, plan, now)
    ensures BillsSome(t.invoices[i], plan.installments)
  {
    if i in s.invoices {
      KeyIsIn(s.invoices, i);
    }
    PartOfIsIn(plan.installments, t.invoices[i].title);
  }

  lemma KeyHasRow(invoices: map<Id, Invoice>, tenantId: string, planId: Id, student: Id, title: string)
    requires Key(student, title) in KeysOf(invoices, tenantId, planId)
    ensures HasBill(invoices, BillsOf(invoices, tenantId, planId, student), title)
  {
    var i :| i in invoices && IsBillOf(invoices[i], tenantId, planId) && KeyOf(invoices[i]) == Key(student, title);
    assert i in BillsOf(invoices, tenantId, planId, student);
  }

  lemma KeyIsWanted(students: seq<Id>, parts: seq<Installment>, student: Id, k: nat)
    requires student in students && k < |parts|
    ensures Key(student, parts[k].title) in Wanted(students, parts)
  {
    var x :| 0 <= x < |students| && students[x] == student;
  }

  lemma FirstRunBillsEach(s: Store, t: Store, tenantId: string, plan: Plan, students: seq<Id>, now: int, created: nat,
                          student: Id)
    requires Generated(s, t, tenantId, plan, students, now, created)
    requires KeysOf(s.invoices, tenantId, plan.id) == {} && student in students
    ensures BillEach(t.invoices, BillsOf(t.invoices, tenantId, plan.id, student), plan.installments)
  {
    var ids := BillsOf(t.invoices, tenantId, plan.id, student);
    forall i | i in ids
      ensures i !in s.invoices && BillsSome(t.invoices[i], plan.installments)
    {
      OnlyNewRows(s, t, tenantId, plan, now, i);
    }
    forall k | 0 <= k < |plan.installments|
      ensures HasBill(t.invoices, ids, plan.installments[k].title)
    {
      KeyIsWanted(students, plan.installments, student, k);
      KeyHasRow(t.invoices, tenantId, plan.id, student, plan.installments[k].title);
    }
  }

  /** After a first run for a split plan, what each listed student owes for it adds up to
      the plan's total to the paisa, however often the list repeats anybody. */
  lemma BillingConserves(s: Store, t: Store, tenantId: string, plan: Plan, students: seq<Id>, now: int, created: nat,
                         student: Id, total: int, count: nat, first: int)
    requires Generated(s, t, tenantId, plan, students, now, created)
    requires KeysOf(s.invoices, tenantId, plan.id) == {}
    requires count >= 1 && IsEqualSplit(plan.installments, total, count, first, 30)
    requires student in students
    ensures Total(Dues(t.invoices), BillsOf(t.invoices, tenantId, plan.id, student)) == total
  {
    SplitTitlesDistinct(plan.installments, total, count, first, 30);
    FirstRunBillsEach(s, t, tenantId, plan, students, now, created, student);
    BillsAddUp(t.invoices, BillsOf(t.invoices, tenantId, plan.id, student), plan.installments);
  }
}
