/** `createPlan`: explicit installments or an equal split, and the sum check. */
module FeePlans {
  import opened Wrappers
  import opened Text
  import opened FeeCalc
  import opened Binary64
  import opened MoneyRounding

  datatype PlanInstallment = PlanInstallment(title: string, amount: real, dueDate: int)

  datatype FeePlan = FeePlan(name: string, totalAmount: real, batchId: Option<nat>,
                             installments: seq<PlanInstallment>)

  function PlanAmounts(parts: seq<PlanInstallment>): (r: seq<real>)
    ensures |r| == |parts|
  {
    seq(|parts|, k requires 0 <= k < |parts| => parts[k].amount)
  }

  /** `out.push({label, amount: paisa / 100, dueDate})` for every part. */
  function InRupees(parts: seq<Installment>): (r: seq<PlanInstallment>)
    ensures |r| == |parts|
  {
    seq(|parts|, k requires 0 <= k < |parts| =>
      PlanInstallment(parts[k].title, Rupees(Fl, parts[k].amount), parts[k].dueDate))
  }

  lemma InRupeesAmounts(parts: seq<Installment>)
    ensures PlanAmounts(InRupees(parts)) == StoredAs(Fl, Amounts(parts))
  {
  }

  lemma ToPaisaNonNegative(total: real)
    requires total >= 0.0
    ensures ToPaisa(Fl, total) >= 0
  {
    FlMonotone(0.0, total * 100.0);
    FlError(0.0);
  }

  /** The installments an accepted split stores: `count` fair parts of the rounded total. */
  ghost predicate IsStoredSplit(stored: seq<PlanInstallment>, total: real, count: nat, first: int)
    requires count >= 1
  {
    exists parts: seq<Installment> ::
      stored == InRupees(parts) && IsEqualSplit(parts, ToPaisa(Fl, total), count, first, 30)
  }

  /** Installment k of a stored split: its label and due date, and its share of the paisa. */
  ghost predicate HasSplitFields(stored: seq<PlanInstallment>, total: real, count: nat, first: int)
    requires count >= 1
  {
    var paisa := ToPaisa(Fl, total);
    && |stored| == count
    && forall k :: 0 <= k < |stored| ==>
         && stored[k].title == "Installment " + Numeral(k + 1)
         && stored[k].dueDate == first + 30 * k
         && stored[k].amount == Rupees(Fl, paisa / count + if k < paisa % count then 1 else 0)
  }

  lemma SplitFields(stored: seq<PlanInstallment>, total: real, count: nat, first: int)
    requires count >= 1 && IsStoredSplit(stored, total, count, first)
    ensures HasSplitFields(stored, total, count, first)
  {
    var parts :| stored == InRupees(parts) && IsEqualSplit(parts, ToPaisa(Fl, total), count, first, 30);
    PartFields(parts, ToPaisa(Fl, total), count, first);
    StoredFields(parts, total, count, first);
  }

  lemma StoredFields(parts: seq<Installment>, total: real, count: nat, first: int)
    requires count >= 1 && |parts| == count
    requires forall k :: 0 <= k < count ==>
               && parts[k].title == "Installment " + Numeral(k + 1) && parts[k].dueDate == first + 30 * k
               && parts[k].amount == ToPaisa(Fl, total) / count + if k < ToPaisa(Fl, total) % count then 1 else 0
    ensures HasSplitFields(InRupees(parts), total, count, first)
  {
  }

  lemma PartFields(parts: seq<Installment>, paisa: int, count: nat, first: int)
    requires count >= 1 && IsEqualSplit(parts, paisa, count, first, 30)
    ensures |parts| == count
    ensures forall k :: 0 <= k < count ==>
              && parts[k].title == "Installment " + Numeral(k + 1) && parts[k].dueDate == first + 30 * k
              && parts[k].amount == paisa / count + if k < paisa % count then 1 else 0
  {
    FairSplitShape(Amounts(parts), paisa, count);
    forall k | 0 <= k < count
      ensures parts[k].amount == paisa / count + if k < paisa % count then 1 else 0
    {
      assert Amounts(parts)[k] == parts[k].amount;
    }
  }

  /** `splitInto` in range: the fold of the split's amounts rounds to the total. */
  ghost predicate SplitFits(total: real, count: int) {
    count >= 1 && total >= 0.0 && (count + 2) * ToPaisa(Fl, total) <= 2251799813685248
  }

  /** `splitEqualInstallments(total, count, firstDueDate)` on a double total. */
  method Split(total: real, count: int, firstDue: int) returns (r: Result<seq<PlanInstallment>>)
    ensures count < 1 ==> r == Err(InvalidCount)
    ensures count >= 1 && total < 0.0 ==> r == Err(NegativeTotal)
    ensures count >= 1 && total >= 0.0 ==>
              r.Ok? && IsStoredSplit(r.value, total, count, firstDue) && HasSplitFields(r.value, total, count, firstDue)
  {
    if count >= 1 && total < 0.0 {
      return Err(NegativeTotal);
    }
    if total >= 0.0 {
      ToPaisaNonNegative(total);
    }
    var parts := SplitEqualInstallments(ToPaisa(Fl, total), count, firstDue, 30);
    match parts
    case Err(e) => r := Err(e);
    case Ok(ps) =>
      r := Ok(InRupees(ps));
      SplitFields(r.value, total, count, firstDue);
  }

  lemma SplitPassesSumCheck(stored: seq<PlanInstallment>, total: real, count: int, firstDue: int)
    requires SplitFits(total, count) && IsStoredSplit(stored, total, count, firstDue)
    ensures |stored| == count && SumCheck(Fl, PlanAmounts(stored), total)
  {
    var parts :| stored == InRupees(parts) && IsEqualSplit(parts, ToPaisa(Fl, total), count, firstDue, 30);
    InRupeesAmounts(parts);
    FlIsAccurate();
    FoldIsExact(Fl, Amounts(parts));
  }

  /** `installments.reduce((a, i) => a + i.amount, 0)`. */
  method SumAmounts(installments: seq<PlanInstallment>) returns (sum: real)
    ensures sum == FoldSum(Fl, PlanAmounts(installments))
  {
    sum := 0.0;
    ghost var amounts := PlanAmounts(installments);
    for i := 0 to |installments|
      invariant sum == FoldSum(Fl, amounts[..i])
    {
      sum := Fl(sum + installments[i].amount);
      assert amounts[..i + 1][..i] == amounts[..i];
    }
    assert amounts[..|installments|] == amounts;
  }

  method CreatePlan(name: string, total: real, batchId: Option<nat>,
                    explicit: seq<PlanInstallment>, splitInto: Option<int>, firstDue: int)
    returns (r: Result<FeePlan>)
    // Neither a list nor a count.
    ensures explicit == [] && (splitInto == None || splitInto == Some(0)) ==> r == Err(NoInstallments)
    // A list wins over a count, and is stored as given when it passes the sum check.
    ensures explicit != [] ==>
              r == if SumCheck(Fl, PlanAmounts(explicit), total)
                   then Ok(FeePlan(name, total, batchId, explicit)) else Err(SumMismatch)
    // The split's own errors.
    ensures explicit == [] && splitInto.Some? && splitInto.value < 0 ==> r == Err(InvalidCount)
    ensures explicit == [] && splitInto.Some? && splitInto.value >= 1 && total < 0.0 ==>
              r == Err(NegativeTotal)
    // A split is stored when it passes the same check.
    ensures explicit == [] && splitInto.Some? && splitInto.value >= 1 && total >= 0.0 ==>
              exists stored :: IsStoredSplit(stored, total, splitInto.value, firstDue)
                && HasSplitFields(stored, total, splitInto.value, firstDue)
                && r == if SumCheck(Fl, PlanAmounts(stored), total)
                        then Ok(FeePlan(name, total, batchId, stored)) else Err(SumMismatch)
    // The plan never rejects its own split, for any double total in range.
    ensures explicit == [] && splitInto.Some? && SplitFits(total, splitInto.value) ==>
              && r.Ok?
              && r.value.totalAmount == total
              && IsStoredSplit(r.value.installments, total, splitInto.value, firstDue)
              && HasSplitFields(r.value.installments, total, splitInto.value, firstDue)
  {
    var installments := explicit;
    if installments == [] && splitInto.Some? && splitInto.value != 0 {
      var parts := Split(total, splitInto.value, firstDue);
      match parts
      case Err(e) => return Err(e);
      case Ok(ps) =>
        installments := ps;
        if SplitFits(total, splitInto.value) {
          SplitPassesSumCheck(ps, total, splitInto.value, firstDue);
        }
    }
    if installments == [] {
      return Err(NoInstallments);
    }
    var sum := SumAmounts(installments);
    if ToPaisa(Fl, sum) != ToPaisa(Fl, total) {
      return Err(SumMismatch);
    }
    r := Ok(FeePlan(name, total, batchId, installments));
  }
}
