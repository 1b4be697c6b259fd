/** Fee arithmetic on exact paisa: the model of fee-calc.ts.
    MoneyRounding relates it to the double arithmetic the program runs. */
module FeeCalc {
  import opened Wrappers
  import opened Text

  datatype InvoiceStatus = Pending | Partial | Paid | Overdue

  /** Due dates are day stamps. */
  datatype Installment = Installment(title: string, amount: int, dueDate: int)

  /** The status partition, in the source's order of tests. */
  function ComputeInvoiceStatus(due: int, paid: int, dueDate: int, now: int): (r: InvoiceStatus)
  {
    if paid >= due && due > 0 then Paid
    else if paid > 0 && paid < due then Partial
    else if dueDate < now then Overdue
    else Pending
  }

  function Min(a: int, b: int): int {
    if a <= b then a else b
  }

  function ApplyPayment(due: int, paid: int, payment: int): (r: Result<int>)
  {
    if payment < 0 then Err(NegativePayment) else Ok(Min(due, paid + payment))
  }

  /** Sum from the left, as `reduce` runs. */
  function Sum(xs: seq<int>): int {
    if xs == [] then 0 else Sum(xs[..|xs| - 1]) + xs[|xs| - 1]
  }

  function Amounts(parts: seq<Installment>): (r: seq<int>)
    ensures |r| == |parts|
  {
    seq(|parts|, k requires 0 <= k < |parts| => parts[k].amount)
  }

  predicate NonIncreasing(xs: seq<int>) {
    forall i, j :: 0 <= i < j < |xs| ==> xs[i] >= xs[j]
  }

  /** What a fair split of `total` into `count` parts is, said without an algorithm. */
  predicate FairSplit(xs: seq<int>, total: int, count: nat) {
    && |xs| == count
    && Sum(xs) == total
    && NonIncreasing(xs)
    && (forall i, j :: 0 <= i < |xs| && 0 <= j < |xs| ==> xs[i] - xs[j] <= 1)
  }

  /** The first k parts sum to base * k plus the remainder handed out so far. */
  predicate PrefixSums(xs: seq<int>, base: int, remainder: nat) {
    forall k :: 0 <= k <= |xs| ==> Sum(xs[..k]) == base * k + Min(remainder, k)
  }

  function DueDay(first: int, intervalDays: int, k: nat): int {
    first + k * intervalDays
  }

  /** What the split promises: fair amounts that leave no paisa over, numbered
      labels and evenly spaced due days. */
  predicate IsEqualSplit(parts: seq<Installment>, total: int, count: nat, first: int, intervalDays: int)
    requires count >= 1
  {
    && FairSplit(Amounts(parts), total, count)
    && PrefixSums(Amounts(parts), total / count, total % count)
    && (forall k :: 0 <= k < |parts| ==>
          && parts[k].amount >= 0
          && parts[k].title == InstallmentLabel(k)
          && parts[k].dueDate == first + k * intervalDays)
  }

  /** The parts as the loop pushes them. */
  predicate Pushed(out: seq<Installment>, base: int, remainder: int, first: int, intervalDays: int) {
    forall k :: 0 <= k < |out| ==>
      && out[k].amount == base + (if k < remainder then 1 else 0)
      && out[k].title == InstallmentLabel(k)
      && out[k].dueDate == DueDay(first, intervalDays, k)
  }

  /** `splitEqualInstallments`, with `total` already in paisa. */
  method SplitEqualInstallments(total: int, count: int, firstDueDate: int, intervalDays: int)
    returns (r: Result<seq<Installment>>)
    ensures count < 1 ==> r == Err(InvalidCount)
    ensures count >= 1 && total < 0 ==> r == Err(NegativeTotal)
    ensures count >= 1 && total >= 0 ==>
              r.Ok? && IsEqualSplit(r.value, total, count, firstDueDate, intervalDays)
  {
    if count < 1 {
      return Err(InvalidCount);
    }
    if total < 0 {
      return Err(NegativeTotal);
    }
    var base := total / count;
    var remainder := total - base * count;
    var out: seq<Installment> := [];
    for i := 0 to count
      invariant |out| == i && Pushed(out, base, remainder, firstDueDate, intervalDays)
    {
      var paisa := base + (if i < remainder then 1 else 0);
      out := out + [Installment(InstallmentLabel(i), paisa, DueDay(firstDueDate, intervalDays, i))];
    }
    PushedIsEqualSplit(out, total, count, firstDueDate, intervalDays);
    r := Ok(out);
  }

  lemma PushedIsEqualSplit(out: seq<Installment>, total: nat, count: nat, first: int, intervalDays: int)
    requires count >= 1 && |out| == count
    requires Pushed(out, total / count, total - total / count * count, first, intervalDays)
    ensures IsEqualSplit(out, total, count, first, intervalDays)
  {
    var base, remainder := total / count, total % count;
    assert remainder == total - base * count;
    SteppedIsFair(Amounts(out), total, base, remainder);
  }

  lemma SteppedIsFair(xs: seq<int>, total: nat, base: nat, remainder: nat)
    requires remainder < |xs| && total == base * |xs| + remainder
    requires forall k :: 0 <= k < |xs| ==> xs[k] == base + if k < remainder then 1 else 0
    ensures FairSplit(xs, total, |xs|)
    ensures PrefixSums(xs, base, remainder)
  {
    forall k | 0 <= k <= |xs|
      ensures Sum(xs[..k]) == base * k + Min(remainder, k)
    {
      StepSum(xs[..k], base, remainder);
    }
    assert xs[..|xs|] == xs;
  }

  /** A list that steps once from m + 1 down to m sums to m * n + j. */
  lemma {:induction false} StepSum(xs: seq<int>, m: int, j: nat)
    requires forall k :: 0 <= k < |xs| ==> xs[k] == if k < j then m + 1 else m
    ensures Sum(xs) == m * |xs| + Min(j, |xs|)
  {
    if xs != [] {
      StepSum(xs[..|xs| - 1], m, j);
      assert m * |xs| == m * (|xs| - 1) + m;
    }
  }

  /** Where a non-increasing list of spread at most one steps down. */
  lemma {:induction false} StepPoint(xs: seq<int>, m: int) returns (j: nat)
    requires NonIncreasing(xs) && forall k :: 0 <= k < |xs| ==> m <= xs[k] <= m + 1
    ensures j <= |xs| && forall k :: 0 <= k < |xs| ==> xs[k] == if k < j then m + 1 else m
  {
    if xs == [] || xs[|xs| - 1] == m + 1 {
      j := |xs|;
    } else {
      j := StepPoint(xs[..|xs| - 1], m);
    }
  }

  lemma FairSplitShape(xs: seq<int>, total: int, count: nat)
    requires count >= 1 && FairSplit(xs, total, count)
    ensures forall k :: 0 <= k < count ==>
              xs[k] == total / count + if k < total % count then 1 else 0
  {
    var m := xs[count - 1];
    var j := StepPoint(xs, m);
    StepSum(xs, m, j);
    assert j < count;
    assert total == m * count + j;
    DivMod(total, count, m, j);
  }

  lemma MultipleGap(x: int, n: int)
    requires n >= 1
    ensures x >= 1 ==> x * n >= n
    ensures x <= -1 ==> x * n <= -n
  {
  }

  lemma DivMod(total: int, count: nat, m: int, j: nat)
    requires total == m * count + j && j < count
    ensures total / count == m && total % count == j
  {
    var q, r := total / count, total % count;
    assert (m - q) * count == r - j;
    MultipleGap(m - q, count);
  }

  /** The split is the only list with its promised properties. */
  lemma FairSplitUnique(xs: seq<int>, ys: seq<int>, total: int, count: nat)
    requires count >= 1
    requires FairSplit(xs, total, count) && FairSplit(ys, total, count)
    ensures xs == ys
  {
    FairSplitShape(xs, total, count);
    FairSplitShape(ys, total, count);
  }

  lemma {:induction false} SumAtMost(ys: seq<int>, cap: int)
    requires forall k :: 0 <= k < |ys| ==> ys[k] <= cap
    ensures Sum(ys) <= cap * |ys|
  {
    if ys != [] {
      SumAtMost(ys[..|ys| - 1], cap);
      assert cap * |ys| == cap * (|ys| - 1) + cap;
    }
  }

  /** No other list of integers with the same length and sum has a smaller largest part. */
  lemma FairSplitMinimisesLargest(xs: seq<int>, ys: seq<int>, total: int, count: nat)
    requires count >= 1 && FairSplit(xs, total, count)
    requires |ys| == count && Sum(ys) == total
    ensures exists k :: 0 <= k < count && ys[k] >= xs[0]
  {
    FairSplitShape(xs, total, count);
    assert (total / count) * count + total % count == total;
    assert (xs[0] - 1) * count < total;
    if forall k :: 0 <= k < count ==> ys[k] <= xs[0] - 1 {
      SumAtMost(ys, xs[0] - 1);
      assert false;
    }
  }

  /** The four statuses partition the ledger positions of an invoice. */
  lemma StatusPartition(due: int, paid: int, dueDate: int, now: int)
    requires 0 <= paid <= due
    ensures var st := ComputeInvoiceStatus(due, paid, dueDate, now);
            && (st == Paid <==> paid == due > 0)
            && (st == Partial <==> 0 < paid < due)
            && (st == Overdue <==> paid == 0 && (due == 0 || paid < due) && dueDate < now)
            && (st == Pending <==> paid == 0 && (due == 0 || paid < due) && now <= dueDate)
  {
  }
}
