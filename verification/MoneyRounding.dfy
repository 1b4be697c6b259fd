/** The double arithmetic the fee code runs, and the range in which it agrees
    exactly with whole paisa. The results hold for every rounding `fl` within the
    unit roundoff; Binary64.Fl is one. */
module MoneyRounding {
  import opened Binary64
  import opened FeeCalc

  /** The standard model of rounding, on zero and on anything from a tenth of a paisa up. */
  ghost predicate Accurate(fl: real -> real) {
    forall x: real :: x == 0.0 || Abs(x) >= 0.001 ==> Abs(fl(x) - x) <= Roundoff(Abs(x))
  }

  lemma FlIsAccurate()
    ensures Accurate(Fl)
  {
    forall x: real | x == 0.0 || Abs(x) >= 0.001
      ensures Abs(Fl(x) - x) <= Roundoff(Abs(x))
    {
      FlError(x);
    }
  }

  /** The double a whole number of paisa is stored as: `paisa / 100`. */
  function Rupees(fl: real -> real, paisa: int): real {
    fl(paisa as real / 100.0)
  }

  /** `Math.round(amount * 100)`. */
  function ToPaisa(fl: real -> real, amount: real): int {
    MathRound(fl(amount * 100.0))
  }

  /** `reduce((a, i) => a + i.amount, 0)`. */
  function FoldSum(fl: real -> real, xs: seq<real>): real {
    if xs == [] then 0.0 else fl(FoldSum(fl, xs[..|xs| - 1]) + xs[|xs| - 1])
  }

  /** The sum check of `createPlan`. */
  predicate SumCheck(fl: real -> real, amounts: seq<real>, total: real) {
    ToPaisa(fl, FoldSum(fl, amounts)) == ToPaisa(fl, total)
  }

  /** `invoice.amountDue - invoice.amountPaid`. */
  function Outstanding(fl: real -> real, due: real, paid: real): real {
    fl(due - paid)
  }

  /** `applyPayment` for a payment that is not negative. */
  function Credit(fl: real -> real, due: real, paid: real, payment: real): real {
    var sum := fl(ToPaisa(fl, fl(paid + payment)) as real / 100.0);
    if due <= sum then due else sum
  }

  /** `computeInvoiceStatus` on doubles. */
  function StatusOf(due: real, paid: real, dueDate: int, now: int): InvoiceStatus {
    if paid >= due && due > 0.0 then Paid
    else if paid > 0.0 && paid < due then Partial
    else if dueDate < now then Overdue
    else Pending
  }

  /** 2^50 paisa. */
  const PAISA_LIMIT: int := 1125899906842624

  // ---- One amount ----

  lemma RupeesError(fl: real -> real, p: int)
    requires Accurate(fl)
    ensures Abs(Rupees(fl, p) - p as real / 100.0) <= Roundoff(Abs(p as real / 100.0))
  {
    var x := p as real / 100.0;
    assert p == 0 || Abs(x) >= 0.01;
  }

  /** A value within `e` of p / 100 rupees is rounded to p paisa. */
  lemma ToPaisaNear(fl: real -> real, x: real, p: int)
    requires Accurate(fl) && -PAISA_LIMIT <= p <= PAISA_LIMIT
    requires p == 0 ==> x == 0.0
    requires Abs(x * 100.0 - p as real) <= 0.26
    ensures ToPaisa(fl, x) == p
  {
    var y := x * 100.0;
    assert y == 0.0 || Abs(y) >= 0.001;
    AccurateAt(fl, y);
    StillNear(y, fl(y), p);
    MathRoundNear(fl(y), p);
  }

  lemma AccurateAt(fl: real -> real, x: real)
    requires Accurate(fl) && (x == 0.0 || Abs(x) >= 0.001)
    ensures Abs(fl(x) - x) <= Roundoff(Abs(x))
  {
  }

  lemma StillNear(y: real, g: real, p: int)
    requires -PAISA_LIMIT <= p <= PAISA_LIMIT && Abs(y - p as real) <= 0.26 && Abs(g - y) <= Roundoff(Abs(y))
    ensures -0.5 <= g - p as real < 0.5
  {
  }

  /** Rupees and back loses nothing. */
  lemma PaisaRoundTrip(fl: real -> real, p: int)
    requires Accurate(fl) && -PAISA_LIMIT <= p <= PAISA_LIMIT
    ensures ToPaisa(fl, Rupees(fl, p)) == p
  {
    RupeesError(fl, p);
    ToPaisaNear(fl, Rupees(fl, p), p);
  }

  /** Comparing stored amounts compares the paisa. */
  lemma RupeesOrder(fl: real -> real, p: int, q: int)
    requires Accurate(fl) && 0 <= p <= PAISA_LIMIT && 0 <= q <= PAISA_LIMIT
    ensures p <= q <==> Rupees(fl, p) <= Rupees(fl, q)
    ensures p < q <==> Rupees(fl, p) < Rupees(fl, q)
  {
    RupeesError(fl, p);
    RupeesError(fl, q);
    if p < q {
      assert p as real + 1.0 <= q as real;
    } else if q < p {
      assert q as real + 1.0 <= p as real;
    }
  }

  // ---- Settling an invoice ----

  lemma ZeroIsExact(fl: real -> real)
    requires Accurate(fl)
    ensures fl(0.0) == 0.0
  {
    assert Abs(fl(0.0) - 0.0) <= Roundoff(Abs(0.0));
  }

  lemma RoundingBound(fl: real -> real, x: real)
    requires Accurate(fl) && x >= 0.001
    ensures -Roundoff(x) <= fl(x) - x <= Roundoff(x)
  {
    assert Abs(fl(x) - x) <= Roundoff(Abs(x));
  }

  lemma RupeesBound(fl: real -> real, p: int)
    requires Accurate(fl) && p >= 0
    ensures -Roundoff(p as real / 100.0) <= Rupees(fl, p) - p as real / 100.0 <= Roundoff(p as real / 100.0)
  {
    RupeesError(fl, p);
  }

  /** The error of a difference and of its rounding, in paisa. */
  lemma DifferenceError(rd: real, ra: real, d: real, a: real)
    requires 0.0 <= a && a + 1.0 <= d <= 1125899906842624.0
    requires -Roundoff(d / 100.0) <= rd - d / 100.0 <= Roundoff(d / 100.0)
    requires -Roundoff(a / 100.0) <= ra - a / 100.0 <= Roundoff(a / 100.0)
    ensures rd - ra >= 0.001
    ensures -0.26 <= (rd - ra - Roundoff(rd - ra)) * 100.0 - (d - a)
    ensures (rd - ra + Roundoff(rd - ra)) * 100.0 - (d - a) <= 0.26
  {
  }

  /** The error of a sum and of its rounding, in paisa. */
  lemma AdditionError(ra: real, rp: real, a: real, p: real)
    requires 0.0 <= a && 0.0 <= p && 1.0 <= a + p <= 1125899906842624.0
    requires -Roundoff(a / 100.0) <= ra - a / 100.0 <= Roundoff(a / 100.0)
    requires -Roundoff(p / 100.0) <= rp - p / 100.0 <= Roundoff(p / 100.0)
    ensures ra + rp >= 0.001
    ensures -0.26 <= (ra + rp - Roundoff(ra + rp)) * 100.0 - (a + p)
    ensures (ra + rp + Roundoff(ra + rp)) * 100.0 - (a + p) <= 0.26
  {
  }

  lemma WithinQuarter(r: real, g: real, e: real, total: real)
    requires -e <= g - r <= e && -0.26 <= (r - e) * 100.0 - total && (r + e) * 100.0 - total <= 0.26
    ensures Abs(g * 100.0 - total) <= 0.26
  {
  }

  lemma DifferenceNear(fl: real -> real, due: int, paid: int)
    requires Accurate(fl) && 0 <= paid < due <= PAISA_LIMIT
    ensures Abs(fl(Rupees(fl, due) - Rupees(fl, paid)) * 100.0 - (due - paid) as real) <= 0.26
  {
    var rd, ra := Rupees(fl, due), Rupees(fl, paid);
    RupeesBound(fl, due);
    RupeesBound(fl, paid);
    DifferenceError(rd, ra, due as real, paid as real);
    RoundingBound(fl, rd - ra);
  }

  lemma AdditionNear(fl: real -> real, paid: int, payment: int)
    requires Accurate(fl) && 0 <= paid && 0 <= payment && 1 <= paid + payment <= PAISA_LIMIT
    ensures Abs(fl(Rupees(fl, paid) + Rupees(fl, payment)) * 100.0 - (paid + payment) as real) <= 0.26
  {
    var ra, rp := Rupees(fl, paid), Rupees(fl, payment);
    RupeesBound(fl, paid);
    RupeesBound(fl, payment);
    AdditionError(ra, rp, paid as real, payment as real);
    RoundingBound(fl, ra + rp);
    WithinQuarter(ra + rp, fl(ra + rp), Roundoff(ra + rp), paid as real + payment as real);
  }

  /** The gateway is asked for exactly the outstanding paisa. */
  lemma OrderIsExact(fl: real -> real, due: int, paid: int)
    requires Accurate(fl) && 0 <= paid <= due <= PAISA_LIMIT
    ensures ToPaisa(fl, Outstanding(fl, Rupees(fl, due), Rupees(fl, paid))) == due - paid
  {
    if due == paid {
      ZeroIsExact(fl);
    } else {
      DifferenceNear(fl, due, paid);
      ToPaisaNear(fl, fl(Rupees(fl, due) - Rupees(fl, paid)), due - paid);
    }
  }

  /** Adding a payment in doubles and rounding to paisa adds the paisa. */
  lemma AdditionIsExact(fl: real -> real, paid: int, payment: int)
    requires Accurate(fl) && 0 <= paid && 0 <= payment && paid + payment <= PAISA_LIMIT
    ensures ToPaisa(fl, fl(Rupees(fl, paid) + Rupees(fl, payment))) == paid + payment
  {
    if paid + payment == 0 {
      ZeroIsExact(fl);
    } else {
      AdditionNear(fl, paid, payment);
      ToPaisaNear(fl, fl(Rupees(fl, paid) + Rupees(fl, payment)), paid + payment);
    }
  }

  /** Crediting in doubles is crediting in paisa. */
  lemma CreditIsExact(fl: real -> real, due: int, paid: int, payment: int)
    requires Accurate(fl) && 0 <= paid <= due && 0 <= payment
    requires due <= PAISA_LIMIT && paid + payment <= PAISA_LIMIT
    ensures Credit(fl, Rupees(fl, due), Rupees(fl, paid), Rupees(fl, payment))
         == Rupees(fl, Min(due, paid + payment))
  {
    AdditionIsExact(fl, paid, payment);
    RupeesOrder(fl, due, paid + payment);
  }

  /** The status computed from doubles is the status of the paisa. */
  lemma StatusIsExact(fl: real -> real, due: int, paid: int, dueDate: int, now: int)
    requires Accurate(fl) && 0 <= paid <= PAISA_LIMIT && 0 <= due <= PAISA_LIMIT
    ensures StatusOf(Rupees(fl, due), Rupees(fl, paid), dueDate, now)
         == ComputeInvoiceStatus(due, paid, dueDate, now)
  {
    RupeesOrder(fl, due, paid);
    RupeesOrder(fl, 0, paid);
    RupeesOrder(fl, 0, due);
    assert Rupees(fl, 0) == 0.0 by {
      RupeesError(fl, 0);
    }
  }

  /** Capturing what the gateway was asked for settles the invoice to the last bit. */
  lemma FullCaptureSettles(fl: real -> real, due: int, paid: int, dueDate: int, now: int)
    requires Accurate(fl) && 0 <= paid <= due <= PAISA_LIMIT && due > 0
    ensures var asked := ToPaisa(fl, Outstanding(fl, Rupees(fl, due), Rupees(fl, paid)));
            var after := Credit(fl, Rupees(fl, due), Rupees(fl, paid), Rupees(fl, asked));
            after == Rupees(fl, due) && StatusOf(Rupees(fl, due), after, dueDate, now) == Paid
  {
    OrderIsExact(fl, due, paid);
    CreditIsExact(fl, due, paid, due - paid);
    StatusIsExact(fl, due, due, dueDate, now);
  }

  function CreditAll(fl: real -> real, due: real, paid: real, payments: seq<real>): real {
    if payments == [] then paid
    else Credit(fl, due, CreditAll(fl, due, paid, payments[..|payments| - 1]), payments[|payments| - 1])
  }

  function StoredAs(fl: real -> real, ps: seq<int>): (r: seq<real>)
    ensures |r| == |ps|
  {
    seq(|ps|, k requires 0 <= k < |ps| => Rupees(fl, ps[k]))
  }

  /** Over any run of captures the stored double is the one for min(due, paid + all payments). */
  lemma {:induction false} LedgerIsExact(fl: real -> real, due: int, paid: int, ps: seq<int>)
    requires Accurate(fl) && 0 <= paid <= due <= PAISA_LIMIT / 2
    requires forall k :: 0 <= k < |ps| ==> 0 <= ps[k] <= PAISA_LIMIT / 2
    ensures 0 <= Sum(ps)
    ensures CreditAll(fl, Rupees(fl, due), Rupees(fl, paid), StoredAs(fl, ps))
         == Rupees(fl, Min(due, paid + Sum(ps)))
  {
    if ps != [] {
      var before, last := ps[..|ps| - 1], ps[|ps| - 1];
      LedgerIsExact(fl, due, paid, before);
      assert StoredAs(fl, ps)[..|ps| - 1] == StoredAs(fl, before);
      CreditIsExact(fl, due, Min(due, paid + Sum(before)), last);
      assert Min(due, Min(due, paid + Sum(before)) + last) == Min(due, paid + Sum(ps));
    }
  }

  // ---- The sum check of a plan ----

  /** n times t, without multiplication. */
  function Times(n: nat, t: real): real {
    if n == 0 then 0.0 else Times(n - 1, t) + t
  }

  lemma {:induction false} TimesIsProduct(n: nat, t: real)
    ensures Times(n, t) == n as real * t
  {
    if n > 0 {
      TimesIsProduct(n - 1, t);
      assert n as real * t == (n - 1) as real * t + t;
    }
  }

  predicate Within(x: real, exact: real, slack: real) {
    -slack <= x - exact <= slack
  }

  /** One addition of the fold: what its rounding adds to the drift. */
  lemma AddError(s: real, rp: real, f: real, exact: real, drift: real, top: real, p: real)
    requires 0.0 <= p && 0.0 <= exact && exact + p <= top && 0.0 <= drift
    requires Within(s, exact, 2.0 * Roundoff(drift + exact))
    requires Within(rp, p, Roundoff(p))
    requires Within(f, s + rp, Roundoff(s + rp))
    requires 2.0 * Roundoff(drift + top) <= top
    ensures Within(f, exact + p, 2.0 * Roundoff(drift + top + (exact + p)))
  {
    var e := 2.0 * Roundoff(drift + exact) + Roundoff(p);
    assert Within(s + rp, exact + p, e);
    assert Within(f, exact + p, e + Roundoff(exact + p + e));
  }

  lemma {:induction false} SumNonNegative(ps: seq<int>)
    requires forall k :: 0 <= k < |ps| ==> 0 <= ps[k]
    ensures 0 <= Sum(ps)
  {
    if ps != [] {
      SumNonNegative(ps[..|ps| - 1]);
    }
  }

  /** The fold of n stored amounts drifts from their sum by less than the limit allows. */
  lemma {:induction false} FoldDrift(fl: real -> real, ps: seq<int>, top: int)
    requires Accurate(fl)
    requires forall k :: 0 <= k < |ps| ==> 0 <= ps[k]
    requires 0 <= Sum(ps) <= top
    requires 1 <= top && (|ps| + 1) * top <= 2251799813685248
    ensures Drifted(FoldSum(fl, StoredAs(fl, ps)), Sum(ps), Times(|ps|, top as real / 100.0))
  {
    if ps != [] {
      var n := |ps|;
      var before, last := ps[..n - 1], ps[n - 1];
      SumNonNegative(before);
      assert n * top + top == (n + 1) * top;
      FoldDrift(fl, before, top);
      assert StoredAs(fl, ps)[..n - 1] == StoredAs(fl, before);
      DriftLimit(n - 1, top);
      FoldStep(fl, FoldSum(fl, StoredAs(fl, before)), Sum(before),
               Times(n - 1, top as real / 100.0), top, last);
    }
  }

  /** The double `s` stands for `sum` paisa, up to the drift of the additions so far. */
  predicate Drifted(s: real, sum: int, drift: real) {
    && Within(s, sum as real / 100.0, 2.0 * Roundoff(drift + sum as real / 100.0))
    && (sum == 0 ==> s == 0.0)
  }

  lemma FoldStep(fl: real -> real, s: real, sum: int, drift: real, top: int, p: int)
    requires Accurate(fl) && 0 <= sum && 0 <= p && sum + p <= top && 0.0 <= drift
    requires Drifted(s, sum, drift)
    requires 2.0 * Roundoff(drift + top as real / 100.0) <= 0.0051
    requires 2.0 * Roundoff(drift + top as real / 100.0) <= top as real / 100.0
    ensures Drifted(fl(s + Rupees(fl, p)), sum + p, drift + top as real / 100.0)
  {
    RupeesBound(fl, p);
    var x := s + Rupees(fl, p);
    if sum + p == 0 {
      ZeroIsExact(fl);
    } else {
      assert (sum + p) as real >= 1.0;
      assert x >= 0.001;
      RoundingBound(fl, x);
      AddError(s, Rupees(fl, p), fl(x), sum as real / 100.0, drift, top as real / 100.0, p as real / 100.0);
    }
  }

  lemma DriftLimit(n: nat, top: int)
    requires 1 <= top && (n + 2) * top <= 2251799813685248
    ensures 0.0 <= Times(n, top as real / 100.0)
    ensures 2.0 * Roundoff(Times(n, top as real / 100.0) + top as real / 100.0) <= 0.0051
    ensures 2.0 * Roundoff(Times(n, top as real / 100.0) + top as real / 100.0) <= top as real / 100.0
  {
    var t := top as real / 100.0;
    TimesIsProduct(n, t);
    Distribute(n, top);
  }

  lemma Distribute(n: nat, top: int)
    requires 1 <= top
    ensures n as real * (top as real / 100.0) + 2.0 * (top as real / 100.0) == ((n + 2) * top) as real / 100.0
    ensures n as real * (top as real / 100.0) >= 0.0
  {
    assert ((n + 2) * top) as real == (n + 2) as real * top as real;
  }

  lemma {:induction false} FoldZero(fl: real -> real, ps: seq<int>)
    requires Accurate(fl) && Sum(ps) == 0
    requires forall k :: 0 <= k < |ps| ==> 0 <= ps[k]
    ensures FoldSum(fl, StoredAs(fl, ps)) == 0.0
  {
    ZeroIsExact(fl);
    if ps != [] {
      var before := ps[..|ps| - 1];
      SumNonNegative(before);
      FoldZero(fl, before);
      assert StoredAs(fl, ps)[..|ps| - 1] == StoredAs(fl, before);
    }
  }

  lemma FoldLimit(n: nat, top: int)
    requires 1 <= top && (n + 2) * top <= 2251799813685248
    ensures (n + 1) * top <= 2251799813685248
    ensures 0.0 <= Times(n, top as real / 100.0)
    ensures Times(n, top as real / 100.0) + 2.0 * (top as real / 100.0) <= 22517998136852.48
  {
    assert (n + 2) * top == (n + 1) * top + top;
    TimesIsProduct(n, top as real / 100.0);
    Distribute(n, top);
  }

  /** n stored amounts of sum T paisa, (n + 2) T <= 2^51: the double fold rounds to exactly T. */
  lemma FoldIsExact(fl: real -> real, ps: seq<int>)
    requires Accurate(fl)
    requires forall k :: 0 <= k < |ps| ==> 0 <= ps[k]
    requires (|ps| + 2) * Sum(ps) <= 2251799813685248
    ensures ToPaisa(fl, FoldSum(fl, StoredAs(fl, ps))) == Sum(ps)
  {
    SumNonNegative(ps);
    if Sum(ps) == 0 {
      FoldZero(fl, ps);
      ZeroIsExact(fl);
    } else {
      FoldLimit(|ps|, Sum(ps));
      FoldDrift(fl, ps, Sum(ps));
      FoldRounds(fl, FoldSum(fl, StoredAs(fl, ps)), Sum(ps), Times(|ps|, Sum(ps) as real / 100.0));
    }
  }

  lemma FoldRounds(fl: real -> real, s: real, top: int, drift: real)
    requires Accurate(fl) && 1 <= top && 0.0 <= drift
    requires Drifted(s, top, drift)
    requires drift + 2.0 * (top as real / 100.0) <= 22517998136852.48
    ensures ToPaisa(fl, s) == top
  {
    var y := s * 100.0;
    assert Within(y, top as real, 200.0 * Roundoff(drift + top as real / 100.0));
    assert 200.0 * Roundoff(drift + top as real / 100.0) <= 0.5 - 2.0 * Roundoff(top as real);
    assert y >= 0.5;
    RoundingBound(fl, y);
    MathRoundNear(fl(y), top);
  }

  /** `createPlan` accepts whole-paisa installments exactly when they sum to the total. */
  lemma SumCheckIsExact(fl: real -> real, ps: seq<int>, total: int)
    requires Accurate(fl) && 0 <= total <= PAISA_LIMIT
    requires forall k :: 0 <= k < |ps| ==> 0 <= ps[k]
    requires (|ps| + 2) * Sum(ps) <= 2251799813685248
    ensures SumCheck(fl, StoredAs(fl, ps), Rupees(fl, total)) <==> Sum(ps) == total
  {
    FoldIsExact(fl, ps);
    PaisaRoundTrip(fl, total);
  }

  // ---- Amounts that are not whole paisa ----

  lemma CreditAtLeast(due: real, paid: real, payment: real)
    requires 0.0 <= paid <= due && Fl(paid) == paid && payment >= 0.0 && Rupees(Fl, ToPaisa(Fl, paid)) >= paid
    ensures Credit(Fl, due, paid, payment) >= paid
  {
    var x := Fl(paid + payment);
    FlMonotone(paid, paid + payment);
    FlMonotone(paid * 100.0, x * 100.0);
    MathRoundMonotone(Fl(paid * 100.0), Fl(x * 100.0));
    FlMonotone(ToPaisa(Fl, paid) as real / 100.0, ToPaisa(Fl, x) as real / 100.0);
  }

  /** Over all payments at once, fractions of a paisa and zero included, and in any range:
      none lowers the paid amount if and only if rounding that amount to the paisa does not. */
  lemma CreditNeverLowersIff(due: real, paid: real)
    requires 0.0 <= paid <= due && IsDouble(paid)
    ensures (forall payment: real {:trigger Credit(Fl, due, paid, payment)} ::
               payment >= 0.0 ==> Credit(Fl, due, paid, payment) >= paid)
            <==> Rupees(Fl, ToPaisa(Fl, paid)) >= paid
  {
    FlExact(paid);
    if Rupees(Fl, ToPaisa(Fl, paid)) >= paid {
      forall payment: real {:trigger Credit(Fl, due, paid, payment)} | payment >= 0.0
        ensures Credit(Fl, due, paid, payment) >= paid
      {
        CreditAtLeast(due, paid, payment);
      }
    } else {
      assert paid + 0.0 == paid;
      assert Credit(Fl, due, paid, 0.0) < paid;
    }
  }

  /** Rounding to the paisa takes back less than a captured paisa adds. */
  lemma RoundedSumAtLeast(paid: real, payment: real, x: real, g: real, k: int)
    requires 0.0 <= paid <= 11258999068426.24 && payment >= 0.00999
    requires x >= (paid + payment) - Roundoff(paid + payment)
    requires g >= x * 100.0 - Roundoff(x * 100.0) && k as real > g - 0.5
    ensures k as real / 100.0 >= paid
  {
  }

  lemma CapturedPaisaKeeps(paid: real, payment: real)
    requires 0.0 <= paid <= 11258999068426.24 && Fl(paid) == paid && payment >= 0.00999
    ensures Rupees(Fl, ToPaisa(Fl, Fl(paid + payment))) >= paid
  {
    var x := Fl(paid + payment);
    FlError(paid + payment);
    FlError(x * 100.0);
    var k := ToPaisa(Fl, x);
    RoundedSumAtLeast(paid, payment, x, Fl(x * 100.0), k);
    FlMonotone(paid, k as real / 100.0);
  }

  /** A payment of at least a paisa is stored as one. */
  lemma PaisaIsStored(p: nat)
    ensures p >= 1 ==> Rupees(Fl, p) >= 0.00999
    ensures p == 0 ==> Rupees(Fl, p) == 0.0
  {
    if p == 0 {
      FlError(0.0);
    } else {
      FlMonotone(0.01, p as real / 100.0);
      FlError(0.01);
    }
  }

  /** Whatever the decimals of the amounts stored, in range: capturing p paisa does not lower
      the paid amount if and only if something is captured, or rounding that amount to the
      paisa does not lower it. */
  lemma CaptureKeepsPaidIff(due: real, paid: real, p: nat)
    requires 0.0 <= paid <= due && IsDouble(paid) && paid <= 11258999068426.24
    ensures Credit(Fl, due, paid, Rupees(Fl, p)) >= paid <==> p >= 1 || Rupees(Fl, ToPaisa(Fl, paid)) >= paid
  {
    FlExact(paid);
    PaisaIsStored(p);
    if p >= 1 {
      CapturedPaisaKeeps(paid, Rupees(Fl, p));
    } else {
      assert paid + 0.0 == paid;
    }
  }

  /** A settled installment of 10.0625 rupees drops to 10.06 at a capture of nothing, and at
      no other capture. */
  lemma SettledInvoiceCanDip(p: nat)
    ensures IsDouble(10.0625) && (Credit(Fl, 10.0625, 10.0625, Rupees(Fl, p)) < 10.0625 <==> p == 0)
  {
    SixteenthRoundsDown();
    CaptureKeepsPaidIff(10.0625, 10.0625, p);
  }

  lemma SixteenthRoundsDown()
    ensures IsDouble(10.0625) && Rupees(Fl, ToPaisa(Fl, 10.0625)) < 10.0625
  {
    assert IsFine(161.0, SMALLEST_BIT - 4);
    assert IsFine(80.5, SMALLEST_BIT - 3);
    assert IsFine(40.25, SMALLEST_BIT - 2);
    assert IsFine(20.125, SMALLEST_BIT - 1);
    assert IsDouble(10.0625);
    assert IsFine(4025.0, SMALLEST_BIT - 2);
    assert IsFine(2012.5, SMALLEST_BIT - 1);
    assert IsDouble(1006.25);
    FlExact(1006.25);
    assert ToPaisa(Fl, 10.0625) == 1006;
    FlError(10.06);
  }
}
