/** Marking attendance: one row per tenant, student, batch and UTC day, and the last mark wins. */
module Attendance {

  type Id = nat

  datatype Status = Present | Absent | Late

  datatype Source = Manual | Biometric

  datatype Row = Row(tenantId: string, student: Id, batch: Id, date: int, status: Status, markedBy: Id, source: Source)

  /** A class day of a student; `date` is the midnight that starts it. */
  datatype Key = Key(tenantId: string, student: Id, batch: Id, date: int)

  datatype Mark = Mark(student: Id, status: Status)

  // ---- Dates ----

  /** msPerDay, section 21.4.1.2 of ECMAScript 2021. */
  const MS_PER_DAY: int := 86400000

  /** Day(t): the UTC day of a time value, also before 1970. */
  function Day(t: int): int {
    t / MS_PER_DAY
  }

  /** `setUTCHours(0, 0, 0, 0)` on a copy of the date. */
  function NormalizeDate(t: int): (r: int)
    ensures r <= t < r + 24 * 60 * 60 * 1000 && r % (24 * 60 * 60 * 1000) == 0
    ensures r == Day(t) * MS_PER_DAY
  {
    t - t % MS_PER_DAY
  }

  /** Two dates share a bucket exactly when they fall on one UTC day. */
  lemma SameBucketIff(a: int, b: int)
    ensures NormalizeDate(a) == NormalizeDate(b) <==> Day(a) == Day(b)
  {
    if Day(a) != Day(b) {
      assert Day(a) * MS_PER_DAY != Day(b) * MS_PER_DAY;
    }
  }

  // ---- The collection and its ledger ----

  /** What is recorded of a class day. */
  datatype Recorded = Recorded(status: Status, markedBy: Id, source: Source)

  function RecordedIn(row: Row): Recorded {
    Recorded(row.status, row.markedBy, row.source)
  }

  function KeyOf(row: Row): Key {
    Key(row.tenantId, row.student, row.batch, row.date)
  }

  predicate HasRow(rows: map<Id, Row>, key: Key) {
    exists i :: i in rows && KeyOf(rows[i]) == key
  }

  /** The collection has exactly one row for every key of the ledger, and it holds what is
      recorded of it. One row per key is the unique index. */
  ghost predicate Records(rows: map<Id, Row>, ledger: map<Key, Recorded>) {
    && (forall i, j :: i in rows && j in rows && i != j ==> KeyOf(rows[i]) != KeyOf(rows[j]))
    && (forall i :: i in rows ==> KeyOf(rows[i]) in ledger && ledger[KeyOf(rows[i])] == RecordedIn(rows[i]))
    && (forall key :: key in ledger ==> HasRow(rows, key))
  }

  /** A collection records one ledger only. */
  lemma RecordsOneLedger(rows: map<Id, Row>, a: map<Key, Recorded>, b: map<Key, Recorded>)
    requires Records(rows, a) && Records(rows, b)
    ensures a == b
  {
    assert a.Keys == b.Keys;
    forall key | key in a
      ensures a[key] == b[key]
    {
      assert HasRow(rows, key);
    }
  }

  /** No row is removed, and none moves to another key. */
  predicate KeepsRows(before: map<Id, Row>, after: map<Id, Row>) {
    forall i :: i in before ==> i in after && KeyOf(after[i]) == KeyOf(before[i])
  }

  /** One `updateOne` of a call. */
  datatype Write = Write(key: Key, what: Recorded)

  datatype Call = Call(tenantId: string, markedBy: Id, batch: Id, t: int, marks: seq<Mark>)

  /** The writes of a call, in order: every mark falls on the UTC day of the call's date. */
  function WritesOf(c: Call): (r: seq<Write>)
    ensures |r| == |c.marks|
  {
    seq(|c.marks|, k requires 0 <= k < |c.marks| =>
      Write(Key(c.tenantId, c.marks[k].student, c.batch, NormalizeDate(c.t)),
            Recorded(c.marks[k].status, c.markedBy, Manual)))
  }

  /** The ledger after some writes. */
  function Written(ledger: map<Key, Recorded>, ws: seq<Write>): map<Key, Recorded> {
    if ws == [] then ledger
    else
      var w := ws[|ws| - 1];
      Written(ledger, ws[..|ws| - 1])[w.key := w.what]
  }

  /** How many absences of a list have somebody to notify. */
  function Notified(marks: seq<Mark>, reachable: set<Id>): nat {
    if marks == [] then 0
    else
      var n := |marks| - 1;
      Notified(marks[..n], reachable) + if marks[n].status == Absent && marks[n].student in reachable then 1 else 0
  }

  /** The notifications of a call are one for each absence with somebody to notify. */
  lemma {:induction false} NotifiedCounts(marks: seq<Mark>, reachable: set<Id>)
    ensures Notified(marks, reachable)
         == |set k | 0 <= k < |marks| && marks[k].status == Absent && marks[k].student in reachable|
  {
    if marks != [] {
      NotifiedCounts(marks[..|marks| - 1], reachable);
      ToNotifySnoc(marks, reachable);
    }
    assert ToNotify(marks, reachable)
        == set k | 0 <= k < |marks| && marks[k].status == Absent && marks[k].student in reachable;
  }

  function ToNotify(marks: seq<Mark>, reachable: set<Id>): set<int> {
    set k | 0 <= k < |marks| && marks[k].status == Absent && marks[k].student in reachable
  }

  lemma ToNotifySnoc(marks: seq<Mark>, reachable: set<Id>)
    requires marks != []
    ensures var n := |marks| - 1;
            ToNotify(marks, reachable)
            == ToNotify(marks[..n], reachable)
               + if marks[n].status == Absent && marks[n].student in reachable then {n} else {}
  {
  }

  /** Storing a row under its key, new or not, writes one point of the ledger. */
  lemma RecordsStore(rows: map<Id, Row>, ledger: map<Key, Recorded>, i: Id, row: Row)
    requires Records(rows, ledger)
    requires i in rows ==> KeyOf(rows[i]) == KeyOf(row)
    requires i !in rows ==> !HasRow(rows, KeyOf(row))
    ensures Records(rows[i := row], ledger[KeyOf(row) := RecordedIn(row)])
    ensures KeepsRows(rows, rows[i := row])
  {
    OtherKeys(rows, ledger, i, row);
    forall key | key in ledger || key == KeyOf(row)
      ensures HasRow(rows[i := row], key)
    {
      StoreHasRow(rows, i, row, key);
    }
  }

  lemma OtherKeys(rows: map<Id, Row>, ledger: map<Key, Recorded>, i: Id, row: Row)
    requires Records(rows, ledger)
    requires i in rows ==> KeyOf(rows[i]) == KeyOf(row)
    requires i !in rows ==> !HasRow(rows, KeyOf(row))
    ensures forall j :: j in rows && j != i ==> KeyOf(rows[j]) != KeyOf(row)
  {
    forall j | j in rows && j != i
      ensures KeyOf(rows[j]) != KeyOf(row)
    {
      assert HasRow(rows, KeyOf(rows[j]));
    }
  }

  lemma StoreHasRow(rows: map<Id, Row>, i: Id, row: Row, key: Key)
    requires i in rows ==> KeyOf(rows[i]) == KeyOf(row)
    requires HasRow(rows, key) || key == KeyOf(row)
    ensures HasRow(rows[i := row], key)
  {
    var after := rows[i := row];
    if key == KeyOf(row) {
      assert after[i] == row;
    } else {
      var j :| j in rows && KeyOf(rows[j]) == key;
      assert after[j] == rows[j];
    }
  }

  predicate LastOfStudent(marks: seq<Mark>, k: int) {
    0 <= k < |marks| && forall j :: k < j < |marks| ==> marks[j].student != marks[k].student
  }

  /** The collection holds this row, and no other of its key. */
  ghost predicate HasExactly(rows: map<Id, Row>, row: Row) {
    exists i :: i in rows && rows[i] == row && forall j :: j in rows && KeyOf(rows[j]) == KeyOf(row) ==> j == i
  }

  /** Each student marked has one row of the batch at the midnight of the call's UTC day, with
      the last status the call gives and who made it. */
  ghost predicate Stored(rows: map<Id, Row>, c: Call) {
    forall k :: 0 <= k < |c.marks| && LastOfStudent(c.marks, k) ==>
      HasExactly(rows, Row(c.tenantId, c.marks[k].student, c.batch, Day(c.t) * MS_PER_DAY,
                           c.marks[k].status, c.markedBy, Manual))
  }

  /** No row but those of the students marked, of that batch and day, is new or changed. */
  ghost predicate OnlyMarked(before: map<Id, Row>, rows: map<Id, Row>, c: Call) {
    forall i :: i in rows && !(i in before && rows[i] == before[i]) ==>
      && rows[i].tenantId == c.tenantId && rows[i].batch == c.batch && rows[i].date == Day(c.t) * MS_PER_DAY
      && exists k :: 0 <= k < |c.marks| && c.marks[k].student == rows[i].student
  }

  class AttendanceService {
    var rows: map<Id, Row>
    var nextId: Id
    ghost var ledger: map<Key, Recorded>

    ghost predicate Valid()
      reads this
    {
      Records(rows, ledger) && forall i :: i in rows ==> i < nextId
    }

    constructor ()
      ensures Valid() && ledger == map[]
    {
      rows, nextId, ledger := map[], 0, map[];
    }

    /** `updateOne(key, { $set }, { upsert: true })`. */
    method Upsert(row: Row)
      requires Valid()
      modifies this
      ensures Valid() && ledger == old(ledger)[KeyOf(row) := RecordedIn(row)]
      ensures KeepsRows(old(rows), rows)
    {
      if i :| i in rows && KeyOf(rows[i]) == KeyOf(row) {
        RecordsStore(rows, ledger, i, row);
        rows := rows[i := rows[i].(status := row.status, markedBy := row.markedBy, source := row.source)];
      } else {
        RecordsStore(rows, ledger, nextId, row);
        rows := rows[nextId := row];
        nextId := nextId + 1;
      }
      ledger := ledger[KeyOf(row) := RecordedIn(row)];
    }

    /** `mark`. `reachable` are the students with a parent or user account to notify. */
    method MarkBatch(c: Call, reachable: set<Id>) returns (marked: nat, absencesNotified: nat)
      requires Valid()
      modifies this
      ensures Valid() && ledger == Written(old(ledger), WritesOf(c))
      ensures KeepsRows(old(rows), rows)
      ensures Stored(rows, c)
      ensures OnlyMarked(old(rows), rows, c)
      ensures marked == |c.marks| && absencesNotified == Notified(c.marks, reachable)
    {
      var date := NormalizeDate(c.t);
      absencesNotified := 0;
      ghost var ws := WritesOf(c);
      for k := 0 to |c.marks|
        invariant Valid() && ledger == Written(old(ledger), ws[..k])
        invariant absencesNotified == Notified(c.marks[..k], reachable)
        invariant KeepsRows(old(rows), rows)
      {
        Upsert(Row(c.tenantId, c.marks[k].student, c.batch, date, c.marks[k].status, c.markedBy, Manual));
        if c.marks[k].status == Absent && c.marks[k].student in reachable {
          absencesNotified := absencesNotified + 1;
        }
        assert ws[..k + 1][..k] == ws[..k] && c.marks[..k + 1][..k] == c.marks[..k];
      }
      assert ws[..|ws|] == ws && c.marks[..|c.marks|] == c.marks;
      marked := |c.marks|;
      CallStored(old(ledger), rows, c);
      CallFrame(old(rows), old(ledger), rows, c);
    }

    /** A sequence of calls, one after the other, each by its own marker and with whoever can
        be notified at that time. */
    method MarkAll(calls: seq<Call>, reachable: seq<set<Id>>) returns (notified: seq<nat>)
      requires Valid() && |reachable| == |calls|
      modifies this
      ensures Valid() && ledger == Replay(old(ledger), calls)
      ensures |notified| == |calls|
      ensures forall k :: 0 <= k < |calls| ==> notified[k] == Notified(calls[k].marks, reachable[k])
      ensures KeepsRows(old(rows), rows)
      // Every date it stores is a midnight.
      ensures forall i :: i in rows && i !in old(rows) ==> rows[i].date % (24 * 60 * 60 * 1000) == 0
    {
      notified := [];
      for k := 0 to |calls|
        invariant Valid() && ledger == Replay(old(ledger), calls[..k])
        invariant |notified| == k && forall j :: 0 <= j < k ==> notified[j] == Notified(calls[j].marks, reachable[j])
        invariant KeepsRows(old(rows), rows)
      {
        var marked, count := MarkBatch(calls[k], reachable[k]);
        notified := notified + [count];
        assert calls[..k + 1][..k] == calls[..k];
      }
      assert calls[..|calls|] == calls;
      NewRowsAtMidnight(old(rows), old(ledger), rows, calls);
    }
  }

  /** The ledger decides the rows: where it is as it was, so are they, field by field. */
  lemma LedgerDecidesRows(before: map<Id, Row>, after: map<Id, Row>, ledger: map<Key, Recorded>,
                          ledger': map<Key, Recorded>, i: Id)
    requires Records(before, ledger) && Records(after, ledger') && KeepsRows(before, after) && i in after
    ensures var key := KeyOf(after[i]);
            && key in ledger' && after[i].markedBy == ledger'[key].markedBy && after[i].source == ledger'[key].source
            && (key in ledger && ledger'[key] == ledger[key] ==> i in before && after[i] == before[i])
  {
    var key := KeyOf(after[i]);
    if key in ledger {
      assert HasRow(before, key);
      var j :| j in before && KeyOf(before[j]) == key;
      assert j in after && KeyOf(after[j]) == key;
    }
  }

  // ---- What a call records ----

  /** Mark n of the call is about this student, batch and UTC day. */
  predicate Names(c: Call, n: int, key: Key) {
    && 0 <= n < |c.marks| && c.marks[n].student == key.student
    && c.tenantId == key.tenantId && c.batch == key.batch && Day(c.t) * MS_PER_DAY == key.date
  }

  /** Two marks are recorded under one key exactly when they are of one tenant, student, batch
      and UTC day. */
  lemma OneKeyPerDay(a: Call, b: Call, j: nat, k: nat)
    requires j < |a.marks| && k < |b.marks|
    ensures WritesOf(a)[j].key == WritesOf(b)[k].key <==>
              a.tenantId == b.tenantId && a.marks[j].student == b.marks[k].student && a.batch == b.batch
              && Day(a.t) == Day(b.t)
  {
    SameBucketIff(a.t, b.t);
  }

  predicate IsLastWrite(ws: seq<Write>, k: int, key: Key) {
    0 <= k < |ws| && ws[k].key == key && forall j :: k < j < |ws| ==> ws[j].key != key
  }

  lemma {:induction false} LastWriteWins(ledger: map<Key, Recorded>, ws: seq<Write>, key: Key)
    ensures key in Written(ledger, ws) <==> key in ledger || exists k :: 0 <= k < |ws| && ws[k].key == key
    ensures forall k :: IsLastWrite(ws, k, key) ==>
              key in Written(ledger, ws) && Written(ledger, ws)[key] == ws[k].what
    ensures key in ledger && (forall k :: 0 <= k < |ws| ==> ws[k].key != key) ==>
              key in Written(ledger, ws) && Written(ledger, ws)[key] == ledger[key]
  {
    if ws != [] {
      var last := |ws| - 1;
      LastWriteWins(ledger, ws[..last], key);
      forall k | IsLastWrite(ws, k, key)
        ensures key in Written(ledger, ws) && Written(ledger, ws)[key] == ws[k].what
      {
        assert k == last || IsLastWrite(ws[..last], k, key);
      }
      if k :| 0 <= k < |ws| && ws[k].key == key {
        assert k == last || ws[..last][k].key == key;
      }
    }
  }

  /** One call decides every point of the ledger: the last mark that names it, if any does. */
  lemma CallRecords(ledger: map<Key, Recorded>, c: Call, key: Key)
    ensures var after := Written(ledger, WritesOf(c));
            && (key in after <==> key in ledger || IsNamedBy(c, key))
            && (forall n :: Names(c, n, key) && LastOfStudent(c.marks, n) ==>
                  key in after && after[key] == Recorded(c.marks[n].status, c.markedBy, Manual))
            && (key in ledger && !IsNamedBy(c, key) ==> after[key] == ledger[key])
  {
    var ws := WritesOf(c);
    LastWriteWins(ledger, ws, key);
    forall k | 0 <= k < |ws|
      ensures ws[k].key == key <==> Names(c, k, key)
    {
    }
    forall n | Names(c, n, key) && LastOfStudent(c.marks, n)
      ensures IsLastWrite(ws, n, key)
    {
    }
    if k :| 0 <= k < |ws| && ws[k].key == key {
      assert Names(c, k, key);
    }
  }

  lemma RecordedRow(rows: map<Id, Row>, ledger: map<Key, Recorded>, row: Row)
    requires Records(rows, ledger) && KeyOf(row) in ledger && ledger[KeyOf(row)] == RecordedIn(row)
    ensures HasExactly(rows, row)
  {
    assert HasRow(rows, KeyOf(row));
    var i :| i in rows && KeyOf(rows[i]) == KeyOf(row);
    assert rows[i] == row;
  }

  lemma CallStored(ledger: map<Key, Recorded>, rows: map<Id, Row>, c: Call)
    requires Records(rows, Written(ledger, WritesOf(c)))
    ensures Stored(rows, c)
  {
    forall k | 0 <= k < |c.marks| && LastOfStudent(c.marks, k)
      ensures HasExactly(rows, Row(c.tenantId, c.marks[k].student, c.batch, Day(c.t) * MS_PER_DAY,
                                   c.marks[k].status, c.markedBy, Manual))
    {
      var row := Row(c.tenantId, c.marks[k].student, c.batch, Day(c.t) * MS_PER_DAY,
                     c.marks[k].status, c.markedBy, Manual);
      assert Names(c, k, KeyOf(row));
      CallRecords(ledger, c, KeyOf(row));
      RecordedRow(rows, Written(ledger, WritesOf(c)), row);
    }
  }

  lemma CallFrame(before: map<Id, Row>, ledger: map<Key, Recorded>, rows: map<Id, Row>, c: Call)
    requires Records(before, ledger) && Records(rows, Written(ledger, WritesOf(c))) && KeepsRows(before, rows)
    ensures OnlyMarked(before, rows, c)
  {
    forall i | i in rows && !(i in before && rows[i] == before[i])
      ensures IsNamedBy(c, KeyOf(rows[i]))
    {
      CallRecords(ledger, c, KeyOf(rows[i]));
      LedgerDecidesRows(before, rows, ledger, Written(ledger, WritesOf(c)), i);
    }
    forall i | i in rows && !(i in before && rows[i] == before[i])
      ensures rows[i].tenantId == c.tenantId && rows[i].batch == c.batch
           && rows[i].date == Day(c.t) * MS_PER_DAY
           && exists k :: 0 <= k < |c.marks| && c.marks[k].student == rows[i].student
    {
      var k :| Names(c, k, KeyOf(rows[i]));
      assert c.marks[k].student == rows[i].student;
    }
  }

  // ---- Sequences of calls ----

  /** The ledger after a sequence of calls. */
  function Replay(ledger: map<Key, Recorded>, calls: seq<Call>): map<Key, Recorded> {
    if calls == [] then ledger
    else Written(Replay(ledger, calls[..|calls| - 1]), WritesOf(calls[|calls| - 1]))
  }

  /** Mark n of call m names the key, and no later mark of that call or a later one does. */
  ghost predicate IsLastMark(calls: seq<Call>, m: int, n: int, key: Key) {
    && 0 <= m < |calls| && Names(calls[m], n, key) && LastOfStudent(calls[m].marks, n)
    && forall j, k :: m < j < |calls| ==> !Names(calls[j], k, key)
  }

  ghost predicate IsNamedBy(c: Call, key: Key) {
    exists n :: Names(c, n, key)
  }

  ghost predicate IsNamed(calls: seq<Call>, key: Key) {
    exists m :: 0 <= m < |calls| && IsNamedBy(calls[m], key)
  }

  lemma IsNamedSnoc(calls: seq<Call>, key: Key)
    requires calls != []
    ensures IsNamed(calls, key) <==> IsNamed(calls[..|calls| - 1], key) || IsNamedBy(calls[|calls| - 1], key)
  {
    var before := calls[..|calls| - 1];
    if m :| 0 <= m < |calls| && IsNamedBy(calls[m], key) {
      assert m == |calls| - 1 || IsNamedBy(before[m], key);
    }
    if m :| 0 <= m < |before| && IsNamedBy(before[m], key) {
      assert IsNamedBy(calls[m], key);
    }
  }

  /** Over any sequence of calls, a student, batch and UTC day is recorded exactly when it was
      before or some mark names it, and what no mark names stays as it was. */
  lemma {:induction false} RecordedIffNamed(ledger: map<Key, Recorded>, calls: seq<Call>, key: Key)
    ensures key in Replay(ledger, calls) <==> key in ledger || IsNamed(calls, key)
    ensures key in ledger && !IsNamed(calls, key) ==> Replay(ledger, calls)[key] == ledger[key]
  {
    if calls != [] {
      var last := |calls| - 1;
      RecordedIffNamed(ledger, calls[..last], key);
      CallRecords(Replay(ledger, calls[..last]), calls[last], key);
      IsNamedSnoc(calls, key);
    }
  }

  /** With the status of the last mark that names it and who made it. */
  lemma {:induction false} LastMarkWins(ledger: map<Key, Recorded>, calls: seq<Call>, m: nat, n: nat, key: Key)
    requires IsLastMark(calls, m, n, key)
    ensures key in Replay(ledger, calls)
    ensures Replay(ledger, calls)[key] == Recorded(calls[m].marks[n].status, calls[m].markedBy, Manual)
  {
    var last := |calls| - 1;
    var before := calls[..last];
    CallRecords(Replay(ledger, before), calls[last], key);
    if m < last {
      assert before[m] == calls[m];
      LastMarkWins(ledger, before, m, n, key);
    }
  }

  /** So every date that calls store is a midnight. */
  lemma NewRowsAtMidnight(before: map<Id, Row>, ledger: map<Key, Recorded>, rows: map<Id, Row>, calls: seq<Call>)
    requires Records(before, ledger) && Records(rows, Replay(ledger, calls)) && KeepsRows(before, rows)
    ensures forall i :: i in rows && i !in before ==> rows[i].date % (24 * 60 * 60 * 1000) == 0
  {
    forall i | i in rows && i !in before
      ensures rows[i].date % (24 * 60 * 60 * 1000) == 0
    {
      var key := KeyOf(rows[i]);
      RecordedIffNamed(ledger, calls, key);
      var m :| 0 <= m < |calls| && IsNamedBy(calls[m], key);
      assert rows[i].date == NormalizeDate(calls[m].t);
    }
  }

  /** So a collection that starts empty holds, for each student, batch and UTC day some mark
      names, exactly one row, dated at its midnight, with what the last such mark says. */
  lemma LastMarkStored(rows: map<Id, Row>, calls: seq<Call>, m: nat, n: nat)
    requires m < |calls| && n < |calls[m].marks|
    requires var c := calls[m];
             && Records(rows, Replay(map[], calls))
             && IsLastMark(calls, m, n, Key(c.tenantId, c.marks[n].student, c.batch, Day(c.t) * MS_PER_DAY))
    ensures var c := calls[m];
            HasExactly(rows, Row(c.tenantId, c.marks[n].student, c.batch, Day(c.t) * MS_PER_DAY,
                                 c.marks[n].status, c.markedBy, Manual))
  {
    var c := calls[m];
    var row := Row(c.tenantId, c.marks[n].student, c.batch, Day(c.t) * MS_PER_DAY,
                   c.marks[n].status, c.markedBy, Manual);
    LastMarkWins(map[], calls, m, n, KeyOf(row));
    RecordedRow(rows, Replay(map[], calls), row);
  }
}
