/** The PostgreSQL adapter's batch write: one set-based INSERT that returns per-key counts,
    then a classification of the remaining rows against the stored payloads. */
module SetBasedWrite {
  import opened Sequences
  import opened TransactionTable

  /** Ordinals of the first `n` rows that carry `k`, ascending. */
  function Positions(rows: seq<Row>, k: Key, n: nat): (at: seq<nat>)
    requires n <= |rows|
    ensures forall a :: 0 <= a < |at| ==> at[a] < n && rows[at[a]].key == k
    ensures forall a, b :: 0 <= a < b < |at| ==> at[a] < at[b]
    ensures forall i :: 0 <= i < n && rows[i].key == k ==> i in at
  {
    if n == 0 then []
    else if rows[n - 1].key == k then Positions(rows, k, n - 1) + [n - 1]
    else Positions(rows, k, n - 1)
  }

  function InsertedForKey(t: Table, k: Key): (n: nat) {
    if k in t then 0 else 1
  }

  /** Keys with at least one row that was not inserted. */
  function ConflictKeys(t: Table, rows: seq<Row>): (keys: set<Key>) {
    set k | k in Keys(rows) && |Positions(rows, k, |rows|)| > InsertedForKey(t, k)
  }

  /** The rows of one conflict key behind its inserted row. */
  function Skipped(t: Table, rows: seq<Row>, k: Key): (at: seq<nat>)
    requires k in ConflictKeys(t, rows)
  {
    Positions(rows, k, |rows|)[InsertedForKey(t, k)..]
  }

  /** The skipped rows key after key, in the order the adapter visits the keys. */
  function AllSkipped(t: Table, rows: seq<Row>, order: seq<Key>): (at: seq<nat>)
    requires forall k :: k in order ==> k in ConflictKeys(t, rows)
  {
    if order == [] then []
    else Skipped(t, rows, order[0]) + AllSkipped(t, rows, order[1..])
  }

  /** What the adapter reports for row `i`: its payload against the one the table keeps. */
  function Evidence(stored: Table, rows: seq<Row>, i: nat): (d: Duplicate) {
    if i < |rows| && rows[i].key in stored then
      Duplicate(i, rows[i].key, rows[i].payload, stored[rows[i].key])
    else Duplicate(i, Key("", ""), "", "")
  }

  function Evidences(stored: Table, rows: seq<Row>, at: seq<nat>): (ds: seq<Duplicate>)
    ensures |ds| == |at|
    ensures forall a :: 0 <= a < |at| ==> ds[a] == Evidence(stored, rows, at[a])
  {
    seq(|at|, a requires 0 <= a < |at| => Evidence(stored, rows, at[a]))
  }

  function WriteSet(t: Table, rows: seq<Row>, order: seq<Key>): (w: WriteOutcome)
    requires forall k :: k in order ==> k in ConflictKeys(t, rows)
  {
    var stored := Insert(t, rows);
    WriteOutcome(stored, |stored.Keys - t.Keys|,
                 Evidences(stored, rows, AllSkipped(t, rows, order)), 0)
  }

  /** Row `i` does not enter the table: its key was there before the batch or an earlier
      row of the batch took it. */
  predicate IsDuplicate(t: Table, rows: seq<Row>, i: nat)
    requires i < |rows|
  {
    rows[i].key in t || !IsFirst(rows, i)
  }

  /** Behind the inserted row of a key lie exactly its duplicates. */
  lemma {:induction false} SkippedAreDuplicates(t: Table, rows: seq<Row>, k: Key, i: nat)
    requires k in ConflictKeys(t, rows)
    ensures i in Skipped(t, rows, k) <==>
      i < |rows| && rows[i].key == k && IsDuplicate(t, rows, i)
  {
    var at := Positions(rows, k, |rows|);
    if k !in t && i in at {
      var a :| 0 <= a < |at| && at[a] == i;
      if a == 0 {
        assert forall j :: 0 <= j < i && rows[j].key == k ==> j in at;
        assert IsFirst(rows, i);
      } else {
        assert at[0] < i && rows[at[0]].key == k;
        assert at[1..][a - 1] == i;
      }
    }
  }

  lemma {:induction false} AllSkippedAreDuplicates(t: Table, rows: seq<Row>, order: seq<Key>)
    requires Distinct(order) && forall k :: k in order ==> k in ConflictKeys(t, rows)
    ensures forall i :: i in AllSkipped(t, rows, order) <==>
      0 <= i < |rows| && rows[i].key in order && IsDuplicate(t, rows, i)
    ensures Distinct(AllSkipped(t, rows, order))
  {
    if order != [] {
      var mine, others := Skipped(t, rows, order[0]), AllSkipped(t, rows, order[1..]);
      AllSkippedAreDuplicates(t, rows, order[1..]);
      forall i: nat {
        SkippedAreDuplicates(t, rows, order[0], i);
      }
      assert order[0] !in order[1..];
      assert Distinct(mine);
      forall a, b | 0 <= a < |mine| && 0 <= b < |others|
        ensures mine[a] != others[b]
      {
        assert mine[a] in mine && others[b] in others;
      }
    }
  }

  lemma {:induction false} DuplicateKeyConflicts(t: Table, rows: seq<Row>, i: nat)
    requires i < |rows| && IsDuplicate(t, rows, i)
    ensures rows[i].key in ConflictKeys(t, rows)
  {
    var k := rows[i].key;
    var at := Positions(rows, k, |rows|);
    assert i in at;
    if k !in t {
      var j :| 0 <= j < i && rows[j].key == k;
      assert j in at;
      TwoMembers(at, i, j);
    }
  }

  lemma {:induction false} TwoMembers(at: seq<nat>, i: nat, j: nat)
    requires i in at && j in at && i != j
    ensures |at| > 1
  {
  }

  /** `d` is the evidence for a duplicate among the first `n` rows. */
  ghost predicate Reported(t: Table, rows: seq<Row>, n: nat, d: Duplicate)
    requires n <= |rows|
  {
    && d.incomingIndex < n && IsDuplicate(t, rows, d.incomingIndex)
    && d == Evidence(Insert(t, rows[..n]), rows, d.incomingIndex)
  }

  lemma {:induction false} ReportedStays(t: Table, rows: seq<Row>, n: nat, d: Duplicate)
    requires n < |rows| && d.incomingIndex < n
    ensures Reported(t, rows, n + 1, d) <==> Reported(t, rows, n, d)
  {
    assert rows[..n + 1][..n] == rows[..n];
    assert rows[d.incomingIndex] == rows[..n][d.incomingIndex];
    LookupAfterInsert(t, rows[..n], rows[d.incomingIndex].key);
  }

  lemma {:induction false} LastReported(t: Table, rows: seq<Row>, n: nat, d: Duplicate)
    requires n < |rows| && d.incomingIndex == n
    ensures var before := Insert(t, rows[..n]);
      Reported(t, rows, n + 1, d) <==>
        rows[n].key in before
        && d == Duplicate(n, rows[n].key, rows[n].payload, before[rows[n].key])
  {
    assert rows[..n + 1][..n] == rows[..n];
    LookupAfterInsert(t, rows[..n], rows[n].key);
    assert forall j :: 0 <= j < n ==> rows[..n][j] == rows[j];
    assert rows[n].key in Keys(rows[..n]) <==> !IsFirst(rows, n);
  }

  lemma {:induction false} NothingFails(t: Table, rows: seq<Row>, n: nat)
    requires n <= |rows|
    ensures WriteRows(t, rows, {}, n).failed == 0
    ensures WriteRows(t, rows, {}, n).table == Insert(t, rows[..n])
  {
    if n > 0 {
      NothingFails(t, rows, n - 1);
      TakeOneMore(rows, n);
    }
  }

  lemma {:induction false} IndexesAscend(t: Table, rows: seq<Row>, n: nat)
    requires n <= |rows|
    ensures forall d :: d in WriteRows(t, rows, {}, n).duplicates ==> d.incomingIndex < n
    ensures Distinct(WriteRows(t, rows, {}, n).duplicates)
  {
    if n > 0 {
      IndexesAscend(t, rows, n - 1);
      var w, k := WriteRows(t, rows, {}, n - 1), rows[n - 1].key;
      if k in w.table {
        DistinctSnoc(w.duplicates, Duplicate(n - 1, k, rows[n - 1].payload, w.table[k]));
      }
    }
  }

  /** Row by row, the payload met on the way is the one the finished table holds. */
  lemma {:induction false} RowByRowReports(t: Table, rows: seq<Row>, n: nat, d: Duplicate)
    requires n <= |rows|
    ensures d in WriteRows(t, rows, {}, n).duplicates <==> Reported(t, rows, n, d)
  {
    if n > 0 {
      RowByRowReports(t, rows, n - 1, d);
      NothingFails(t, rows, n - 1);
      OneMoreReport(t, rows, n - 1, d);
    }
  }

  lemma {:induction false} OneMoreReport(t: Table, rows: seq<Row>, n: nat, d: Duplicate)
    requires n < |rows|
    ensures var before := Insert(t, rows[..n]);
      Reported(t, rows, n + 1, d) <==>
        || Reported(t, rows, n, d)
        || (rows[n].key in before
            && d == Duplicate(n, rows[n].key, rows[n].payload, before[rows[n].key]))
  {
    if d.incomingIndex < n {
      ReportedStays(t, rows, n, d);
    } else if d.incomingIndex == n {
      LastReported(t, rows, n, d);
    }
  }

  /** The set-based write is the row-by-row write: same table, same inserted count, and the
      same evidence for the same rows, so that the classified duplicates account for every
      row that was not inserted. */
  lemma {:induction false} SetBasedIsRowByRow(t: Table, rows: seq<Row>, order: seq<Key>)
    requires Distinct(order) && forall k :: k in order <==> k in ConflictKeys(t, rows)
    ensures var s, w := WriteSet(t, rows, order), WriteRows(t, rows, {}, |rows|);
      && s.table == w.table && s.inserted == w.inserted && s.failed == w.failed
      && multiset(s.duplicates) == multiset(w.duplicates)
      && |s.duplicates| == |rows| - s.inserted
  {
    var s, w := WriteSet(t, rows, order), WriteRows(t, rows, {}, |rows|);
    assert rows[..|rows|] == rows;
    NothingFails(t, rows, |rows|);
    WriteAccounting(t, rows, {}, |rows|);
    IndexesAscend(t, rows, |rows|);
    forall d ensures d in s.duplicates <==> d in w.duplicates {
      SetReports(t, rows, order, d);
      RowByRowReports(t, rows, |rows|, d);
    }
    SetDistinct(t, rows, order);
    DistinctSameElements(s.duplicates, w.duplicates);
    AddedKeys(t, rows);
  }

  lemma {:induction false} AddedKeys(t: Table, rows: seq<Row>)
    ensures |Insert(t, rows)| == |t| + |Insert(t, rows).Keys - t.Keys|
  {
    InsertIsFirstWins(t, rows);
    var all := Insert(t, rows).Keys;
    assert |Insert(t, rows)| == |all| && |t| == |t.Keys|;
    assert all == t.Keys + (all - t.Keys);
  }

  lemma {:induction false} SetDistinct(t: Table, rows: seq<Row>, order: seq<Key>)
    requires Distinct(order) && forall k :: k in order ==> k in ConflictKeys(t, rows)
    ensures Distinct(WriteSet(t, rows, order).duplicates)
  {
    AllSkippedAreDuplicates(t, rows, order);
  }

  lemma {:induction false} SetReports(t: Table, rows: seq<Row>, order: seq<Key>, d: Duplicate)
    requires Distinct(order) && forall k :: k in order <==> k in ConflictKeys(t, rows)
    ensures d in WriteSet(t, rows, order).duplicates <==> Reported(t, rows, |rows|, d)
  {
    assert rows[..|rows|] == rows;
    AllSkippedAreDuplicates(t, rows, order);
    var i := d.incomingIndex;
    if i < |rows| && IsDuplicate(t, rows, i) {
      DuplicateKeyConflicts(t, rows, i);
      EvidenceOf(Insert(t, rows), rows, AllSkipped(t, rows, order), d);
    } else {
      EvidenceOf(Insert(t, rows), rows, AllSkipped(t, rows, order), d);
    }
  }

  lemma {:induction false} EvidenceOf(stored: Table, rows: seq<Row>, at: seq<nat>, d: Duplicate)
    ensures d in Evidences(stored, rows, at)
      <==> d.incomingIndex in at && d == Evidence(stored, rows, d.incomingIndex)
  {
    var ds := Evidences(stored, rows, at);
    if d.incomingIndex in at && d == Evidence(stored, rows, d.incomingIndex) {
      var a :| 0 <= a < |at| && at[a] == d.incomingIndex;
      assert ds[a] == d;
    }
  }
}
