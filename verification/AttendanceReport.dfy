/** The attendance report: present and total days per student, and the rounded rate. */
module AttendanceReport {
  import opened Binary64
  import opened Attendance

  /** One `$group` row. */
  datatype StudentDays = StudentDays(student: Id, present: nat, total: nat)

  datatype StudentRate = StudentRate(student: Id, present: nat, total: nat, rate: real)

  /** The tenant's rows for a student. */
  function RowsOf(rows: map<Id, Row>, tenantId: string, student: Id): set<Id> {
    set i | i in rows && rows[i].tenantId == tenantId && rows[i].student == student
  }

  function AttendedRows(rows: map<Id, Row>, tenantId: string, student: Id): set<Id> {
    set i | i in RowsOf(rows, tenantId, student) && rows[i].status in {Present, Late}
  }

  /** What `$group` by student counts. */
  predicate IsGroup(g: StudentDays, rows: map<Id, Row>, tenantId: string) {
    && g.total == |RowsOf(rows, tenantId, g.student)| > 0
    && g.present == |AttendedRows(rows, tenantId, g.student)|
  }

  /** The class days the ledger has for a student, and those attended. */
  function DaysOf(ledger: map<Key, Recorded>, tenantId: string, student: Id): set<Key> {
    set key | key in ledger && key.tenantId == tenantId && key.student == student
  }

  function AttendedDays(ledger: map<Key, Recorded>, tenantId: string, student: Id): set<Key> {
    set key | key in DaysOf(ledger, tenantId, student) && ledger[key].status in {Present, Late}
  }

  // ---- Counting rows is counting class days ----

  lemma {:induction false} SameSize(rows: map<Id, Row>, ids: set<Id>, keys: set<Key>)
    requires ids <= rows.Keys
    requires forall i, j :: i in ids && j in ids && i != j ==> KeyOf(rows[i]) != KeyOf(rows[j])
    requires forall i :: i in ids ==> KeyOf(rows[i]) in keys
    requires forall key :: key in keys ==> exists i :: i in ids && KeyOf(rows[i]) == key
    ensures |ids| == |keys|
    decreases ids
  {
    if ids == {} {
      assert keys == {};
    } else {
      var i :| i in ids;
      var key := KeyOf(rows[i]);
      forall k | k in keys - {key}
        ensures exists j :: j in ids - {i} && KeyOf(rows[j]) == k
      {
        var j :| j in ids && KeyOf(rows[j]) == k;
        assert j in ids - {i};
      }
      SameSize(rows, ids - {i}, keys - {key});
    }
  }

  /** The group counts are counts over the ledger, and nobody attends more than there is. */
  lemma GroupCountsDays(g: StudentDays, rows: map<Id, Row>, ledger: map<Key, Recorded>, tenantId: string)
    requires Records(rows, ledger) && IsGroup(g, rows, tenantId)
    ensures g.total == |DaysOf(ledger, tenantId, g.student)|
    ensures g.present == |AttendedDays(ledger, tenantId, g.student)|
    ensures 0 <= g.present <= g.total
  {
    var ids, days := RowsOf(rows, tenantId, g.student), DaysOf(ledger, tenantId, g.student);
    forall key | key in days
      ensures exists i :: i in ids && KeyOf(rows[i]) == key
    {
      assert HasRow(rows, key);
    }
    SameSize(rows, ids, days);
    var attended, went := AttendedRows(rows, tenantId, g.student), AttendedDays(ledger, tenantId, g.student);
    forall key | key in went
      ensures exists i :: i in attended && KeyOf(rows[i]) == key
    {
      var i :| i in ids && KeyOf(rows[i]) == key;
      assert i in attended;
    }
    SameSize(rows, attended, went);
    SubsetSize(attended, ids);
  }

  lemma {:induction false} SubsetSize(a: set<Id>, b: set<Id>)
    requires a <= b
    ensures |a| <= |b|
  {
    assert b == a + (b - a);
  }

  // ---- The rate ----

  /** `Math.round((present / total) * 100)`. */
  function Percent(present: nat, total: nat): int
    requires total > 0
  {
    MathRound(Fl(Fl(present as real / total as real) * 100.0))
  }

  function Rate(present: nat, total: nat): real {
    if total == 0 then 0.0 else Fl(Percent(present, total) as real / 100.0)
  }

  /** The two roundings before Math.round are off by less than 402 / 2^54. */
  lemma PercentError(q: real)
    requires q == 0.0 || 0.001 <= q <= 1.0
    ensures -402.0 / 18014398509481984.0 <= Fl(Fl(q) * 100.0) - q * 100.0 <= 402.0 / 18014398509481984.0
  {
    FlError(q);
    var f := Fl(q);
    assert q == 0.0 || f >= 0.0009;
    FlError(f * 100.0);
  }

  lemma SmallPercent(q: real)
    requires 0.0 <= q <= 0.001
    ensures 0.0 <= Fl(Fl(q) * 100.0) < 0.2
  {
    FlMonotone(0.0, q);
    FlMonotone(q, 0.001);
    FlError(0.0);
    FlError(0.001);
    FlMonotone(0.0, Fl(q) * 100.0);
    FlMonotone(Fl(q) * 100.0, 0.15);
    FlError(0.15);
  }

  lemma MulLe(x: real, y: real, t: real)
    requires x <= y && t > 0.0
    ensures x * t <= y * t
  {
  }

  lemma QuotientTimes(p: nat, t: nat)
    requires t > 0 && p <= t
    ensures (p as real / t as real) * t as real == p as real
    ensures 0.0 <= p as real / t as real <= 1.0
  {
  }

  /** k percent of total is as near to present as any whole percentage: within half a
      percent, so k / 100 is within 0.005 of the true ratio. */
  predicate IsNearestPercent(k: int, present: int, total: int) {
    -total <= 2 * (k * total - 100 * present) <= total
  }

  /** For up to 2^40 days the rounding of the doubles does not show. */
  lemma PercentIsNearest(present: nat, total: nat)
    requires 0 < total <= 1099511627776 && present <= total
    ensures IsNearestPercent(Percent(present, total), present, total)
    ensures 0 <= Percent(present, total) <= 100
  {
    var q := present as real / total as real;
    QuotientTimes(present, total);
    if q < 0.001 {
      SmallPercent(q);
      SmallRatio(q, present, total);
    } else {
      PercentError(q);
      RoundedNearest(q, Fl(Fl(q) * 100.0), Percent(present, total), present, total);
    }
    NearestInRange(Percent(present, total), present, total);
  }

  lemma SmallRatio(q: real, present: nat, total: nat)
    requires 0.0 <= q <= 0.001 && q * total as real == present as real && total > 0
    ensures IsNearestPercent(0, present, total)
  {
    MulLe(q, 0.001, total as real);
  }

  lemma RoundedNearest(q: real, g: real, k: int, present: nat, total: nat)
    requires 0 < total <= 1099511627776
    requires q * total as real == present as real
    requires -402.0 / 18014398509481984.0 <= g - q * 100.0 <= 402.0 / 18014398509481984.0
    requires k == MathRound(g)
    ensures IsNearestPercent(k, present, total)
  {
    var t, e := total as real, 402.0 / 18014398509481984.0;
    SmallError(t);
    ScaledUpper(k as real, q, e, t, present as real);
    ScaledLower(k as real, q, e, t, present as real);
    IntProduct(k, total);
    WholeHalves(k * total, present, total, e * t);
  }

  lemma ScaledUpper(k: real, q: real, e: real, t: real, p: real)
    requires t > 0.0 && q * t == p && k - 0.5 <= q * 100.0 + e
    ensures k * t - 0.5 * t <= 100.0 * p + e * t
  {
    MulLe(k - 0.5, q * 100.0 + e, t);
    Distribute(k, 0.5, t);
    Distribute(q * 100.0, e, t);
    ScaleProduct(q, t, p);
  }

  lemma ScaledLower(k: real, q: real, e: real, t: real, p: real)
    requires t > 0.0 && q * t == p && q * 100.0 - e <= k + 0.5
    ensures 100.0 * p - e * t <= k * t + 0.5 * t
  {
    MulLe(q * 100.0 - e, k + 0.5, t);
    Distribute(k, 0.5, t);
    Distribute(q * 100.0, e, t);
    ScaleProduct(q, t, p);
  }

  lemma SmallError(t: real)
    requires 0.0 < t <= 1099511627776.0
    ensures 402.0 / 18014398509481984.0 * t < 0.1
  {
  }

  lemma ScaleProduct(q: real, t: real, p: real)
    requires q * t == p
    ensures (q * 100.0) * t == 100.0 * p
  {
    assert (q * 100.0) * t == 100.0 * (q * t);
  }

  lemma IntProduct(k: int, total: int)
    ensures (k as real) * (total as real) == (k * total) as real
  {
  }

  lemma WholeHalves(kt: int, present: int, total: int, e: real)
    requires e < 0.1
    requires kt as real - 0.5 * total as real <= 100.0 * present as real + e
    requires 100.0 * present as real - e <= kt as real + 0.5 * total as real
    ensures -total <= 2 * (kt - 100 * present) <= total
  {
    assert (2 * kt - total) as real <= (200 * present) as real + 0.2;
    assert (200 * present) as real - 0.2 <= (2 * kt + total) as real;
  }

  lemma Distribute(a: real, b: real, t: real)
    ensures (a + b) * t == a * t + b * t && (a - b) * t == a * t - b * t
  {
  }

  lemma MulBounds(k: int, total: int)
    requires total > 0
    ensures k <= -1 ==> k * total <= -total
    ensures k >= 101 ==> k * total >= 101 * total
  {
    if k <= -1 {
      assert (k + 1) * total <= 0;
    } else if k >= 101 {
      assert (k - 101) * total >= 0;
    }
  }

  lemma NearestInRange(k: int, present: int, total: int)
    requires 0 <= present <= total && total > 0 && IsNearestPercent(k, present, total)
    ensures 0 <= k <= 100
  {
    MulBounds(k, total);
  }

  /** The rate shown is between 0 and 1. */
  lemma RateInUnit(present: nat, total: nat)
    requires total <= 1099511627776 && present <= total
    ensures 0.0 <= Rate(present, total) <= 1.0
  {
    if total > 0 {
      PercentIsNearest(present, total);
      var x := Percent(present, total) as real / 100.0;
      FlMonotone(0.0, x);
      FlMonotone(x, 1.0);
      FlError(0.0);
      IntegerIsFine(1, 0);
      FlExact(1.0);
    }
  }

  // ---- The report ----

  /** What `$group` by student returns: one row for each student with any, in any order. */
  ghost predicate IsGrouping(groups: seq<StudentDays>, rows: map<Id, Row>, tenantId: string) {
    && (forall j, k :: 0 <= j < k < |groups| ==> groups[j].student != groups[k].student)
    && (forall k :: 0 <= k < |groups| ==> IsGroup(groups[k], rows, tenantId))
    && (forall i :: i in rows && rows[i].tenantId == tenantId ==>
          exists k :: 0 <= k < |groups| && groups[k].student == rows[i].student)
  }

  /** `rows.map(...)`. */
  function AttendanceSummary(groups: seq<StudentDays>): (r: seq<StudentRate>)
    ensures |r| == |groups|
  {
    seq(|groups|, k requires 0 <= k < |groups| =>
      StudentRate(groups[k].student, groups[k].present, groups[k].total, Rate(groups[k].present, groups[k].total)))
  }

  /** A line of the report says what the ledger says about its student. */
  ghost predicate Agrees(r: StudentRate, ledger: map<Key, Recorded>, tenantId: string) {
    && r.total == |DaysOf(ledger, tenantId, r.student)|
    && r.present == |AttendedDays(ledger, tenantId, r.student)| <= r.total
    && r.total - r.present == |set key | key in DaysOf(ledger, tenantId, r.student) && ledger[key].status == Absent|
    && (0 < r.total <= 1099511627776 ==> IsRate(r.rate, r.present, r.total))
  }

  /** The rate is the double of a nearest whole percentage, between 0 and 1. */
  ghost predicate IsRate(rate: real, present: nat, total: nat) {
    0.0 <= rate <= 1.0 && exists k: int :: IsNearestPercent(k, present, total) && rate == Fl(k as real / 100.0)
  }

  lemma RateIsRate(present: nat, total: nat)
    requires 0 < total <= 1099511627776 && present <= total
    ensures IsRate(Rate(present, total), present, total)
  {
    RateInUnit(present, total);
    PercentIsNearest(present, total);
  }

  /** A day recorded is attended unless it is marked absent. */
  lemma AbsentDays(ledger: map<Key, Recorded>, tenantId: string, student: Id)
    ensures |DaysOf(ledger, tenantId, student)| - |AttendedDays(ledger, tenantId, student)|
         == |set key | key in DaysOf(ledger, tenantId, student) && ledger[key].status == Absent|
  {
    var absent := set key | key in DaysOf(ledger, tenantId, student) && ledger[key].status == Absent;
    assert DaysOf(ledger, tenantId, student) == AttendedDays(ledger, tenantId, student) + absent;
  }

  /** The report has one line for each student the ledger knows, none for any other, and each
      agrees with the ledger. */
  lemma SummaryAgrees(groups: seq<StudentDays>, rows: map<Id, Row>, ledger: map<Key, Recorded>, tenantId: string)
    requires Records(rows, ledger) && IsGrouping(groups, rows, tenantId)
    ensures forall k :: 0 <= k < |groups| ==> Agrees(AttendanceSummary(groups)[k], ledger, tenantId)
    ensures forall student :: DaysOf(ledger, tenantId, student) != {} <==>
              exists k :: 0 <= k < |groups| && AttendanceSummary(groups)[k].student == student
    ensures forall j, k :: 0 <= j < k < |groups| ==>
              AttendanceSummary(groups)[j].student != AttendanceSummary(groups)[k].student
  {
    var report := AttendanceSummary(groups);
    forall k | 0 <= k < |groups|
      ensures Agrees(report[k], ledger, tenantId) && report[k].total > 0
    {
      assert IsGroup(groups[k], rows, tenantId);
      GroupCountsDays(groups[k], rows, ledger, tenantId);
      AbsentDays(ledger, tenantId, groups[k].student);
      if groups[k].total <= 1099511627776 {
        RateIsRate(groups[k].present, groups[k].total);
      }
    }
    forall student | DaysOf(ledger, tenantId, student) != {}
      ensures exists k :: 0 <= k < |groups| && report[k].student == student
    {
      var key :| key in DaysOf(ledger, tenantId, student);
      assert HasRow(rows, key);
      var i :| i in rows && KeyOf(rows[i]) == key;
      var k :| 0 <= k < |groups| && groups[k].student == rows[i].student;
      assert report[k].student == student;
    }
  }
}
