/** The partner transaction table behind the unique (identify, ingestion_key) constraint,
    and one conflict-safe batch write against it. */
module TransactionTable {
  import opened Sequences

  datatype Key = Key(identify: string, ingestionKey: string)

  /** `payload` is the fingerprint of the business fields that decide equivalence. */
  datatype Row = Row(key: Key, payload: string)

  type Table = map<Key, string>

  function Put(t: Table, r: Row): (t': Table) {
    if r.key in t then t else t[r.key := r.payload]
  }

  /** Insert rows one by one, skipping a key that is already present. */
  function Insert(t: Table, rows: seq<Row>): (t': Table) {
    if rows == [] then t else Put(Insert(t, rows[..|rows| - 1]), rows[|rows| - 1])
  }

  function Keys(rows: seq<Row>): (keys: set<Key>) {
    set i | 0 <= i < |rows| :: rows[i].key
  }

  /** `i` is the first row of `rows` that carries its key. */
  predicate IsFirst(rows: seq<Row>, i: nat)
    requires i < |rows|
  {
    forall j :: 0 <= j < i ==> rows[j].key != rows[i].key
  }

  /** The first row that carries `k`. */
  function FirstIndex(rows: seq<Row>, k: Key): (i: nat)
    requires k in Keys(rows)
    ensures i < |rows| && rows[i].key == k && IsFirst(rows, i)
  {
    var init := rows[..|rows| - 1];
    if k in Keys(init) then FirstIndex(init, k)
    else
      assert forall j :: 0 <= j < |init| ==> init[j].key in Keys(init);
      |rows| - 1
  }

  /** The declarative meaning of the unique constraint: old rows survive, and every new
      key keeps the payload of its first row. */
  ghost predicate FirstWins(t: Table, rows: seq<Row>, t': Table) {
    && t'.Keys == t.Keys + Keys(rows)
    && (forall k :: k in t ==> t'[k] == t[k])
    && (forall k :: k in Keys(rows) && k !in t ==> t'[k] == rows[FirstIndex(rows, k)].payload)
  }

  lemma {:induction false} LookupAfterInsert(t: Table, rows: seq<Row>, k: Key)
    ensures k in Insert(t, rows) <==> k in t || k in Keys(rows)
    ensures k in t ==> Insert(t, rows)[k] == t[k]
    ensures k !in t && k in Keys(rows) ==>
      Insert(t, rows)[k] == rows[FirstIndex(rows, k)].payload
  {
    if rows != [] {
      var n := |rows| - 1;
      var init := rows[..n];
      LookupAfterInsert(t, init, k);
      assert forall i :: 0 <= i < n ==> init[i] == rows[i];
      assert k in Keys(rows) <==> k in Keys(init) || k == rows[n].key;
    }
  }

  lemma {:induction false} InsertIsFirstWins(t: Table, rows: seq<Row>)
    ensures FirstWins(t, rows, Insert(t, rows))
  {
    forall k {
      LookupAfterInsert(t, rows, k);
    }
  }

  /** The description determines the table. */
  lemma {:induction false} FirstWinsIsUnique(t: Table, rows: seq<Row>, t': Table)
    ensures FirstWins(t, rows, t') <==> t' == Insert(t, rows)
  {
    InsertIsFirstWins(t, rows);
  }

  lemma {:induction false} InsertSnoc(t: Table, rows: seq<Row>, r: Row)
    ensures Insert(t, rows + [r]) == Put(Insert(t, rows), r)
  {
    assert (rows + [r])[..|rows|] == rows;
  }

  lemma {:induction false} InsertConcat(t: Table, a: seq<Row>, b: seq<Row>)
    ensures Insert(t, a + b) == Insert(Insert(t, a), b)
  {
    if b == [] {
      assert a + b == a;
    } else {
      var n := |b| - 1;
      assert (a + b)[..|a + b| - 1] == a + b[..n];
      InsertConcat(t, a, b[..n]);
    }
  }

  /** Rows stay, and a key never changes its payload. */
  ghost predicate Extends(t: Table, t': Table) {
    forall k :: k in t ==> k in t' && t'[k] == t[k]
  }

  lemma {:induction false} InsertExtends(t: Table, rows: seq<Row>)
    ensures Extends(t, Insert(t, rows))
  {
    InsertIsFirstWins(t, rows);
  }

  /** Rows whose keys are all present change nothing. */
  lemma {:induction false} InsertPresent(t: Table, rows: seq<Row>)
    requires Keys(rows) <= t.Keys
    ensures Insert(t, rows) == t
  {
    if rows != [] {
      assert forall i :: 0 <= i < |rows| - 1 ==> rows[..|rows| - 1][i] == rows[i];
      assert Keys(rows[..|rows| - 1]) <= Keys(rows);
      assert rows[|rows| - 1].key in Keys(rows);
      InsertPresent(t, rows[..|rows| - 1]);
    }
  }

  // ---------------------------------------------------------------------------
  // Order, worker count and replay
  // ---------------------------------------------------------------------------

  /** How many rows a sequence adds does not depend on its order. */
  lemma {:induction false} CommitOrderKeepsKeys(t: Table, xs: seq<Row>, ys: seq<Row>)
    requires multiset(xs) == multiset(ys)
    ensures Insert(t, xs).Keys == Insert(t, ys).Keys
    ensures |Insert(t, xs)| == |Insert(t, ys)|
  {
    InsertIsFirstWins(t, xs);
    InsertIsFirstWins(t, ys);
    SameKeys(xs, ys);
    var a, b := Insert(t, xs), Insert(t, ys);
    assert |a| == |a.Keys| && |b| == |b.Keys|;
  }

  lemma {:induction false} SameKeys(xs: seq<Row>, ys: seq<Row>)
    requires multiset(xs) == multiset(ys)
    ensures Keys(xs) == Keys(ys)
  {
    forall i | 0 <= i < |xs|
      ensures xs[i].key in Keys(ys)
    {
      assert xs[i] in multiset(ys);
    }
    forall i | 0 <= i < |ys|
      ensures ys[i].key in Keys(xs)
    {
      assert ys[i] in multiset(xs);
    }
  }

  /** Every new key gets the same payload from both sequences. */
  ghost predicate SameWinners(t: Table, xs: seq<Row>, ys: seq<Row>) {
    forall k :: k in Keys(xs) && k in Keys(ys) && k !in t ==>
      xs[FirstIndex(xs, k)].payload == ys[FirstIndex(ys, k)].payload
  }

  /** Two orders of the same rows leave the same table exactly when every new key is
      won by the same payload in both. */
  lemma {:induction false} CommitOrderKeepsTable(t: Table, xs: seq<Row>, ys: seq<Row>)
    requires multiset(xs) == multiset(ys)
    ensures Insert(t, xs) == Insert(t, ys) <==> SameWinners(t, xs, ys)
  {
    InsertIsFirstWins(t, xs);
    InsertIsFirstWins(t, ys);
    SameKeys(xs, ys);
  }

  /** Rows that share a key agree on the payload, unless the table holds the key already. */
  ghost predicate AgreeingNew(t: Table, rows: seq<Row>) {
    forall i, j :: 0 <= i < |rows| && 0 <= j < |rows| ==> AgreeOn(t, rows[i], rows[j])
  }

  predicate AgreeOn(t: Table, a: Row, b: Row) {
    a.key == b.key && a.key !in t ==> a.payload == b.payload
  }

  ghost predicate SameTableInOrder(t: Table, rows: seq<Row>, ys: seq<Row>) {
    multiset(ys) == multiset(rows) ==> Insert(t, ys) == Insert(t, rows)
  }

  lemma {:induction false} AgreeingRowsCommute(t: Table, xs: seq<Row>, ys: seq<Row>)
    requires multiset(xs) == multiset(ys) && AgreeingNew(t, xs)
    ensures Insert(t, xs) == Insert(t, ys)
  {
    forall k | k in Keys(xs) && k in Keys(ys) && k !in t
      ensures xs[FirstIndex(xs, k)].payload == ys[FirstIndex(ys, k)].payload
    {
      assert ys[FirstIndex(ys, k)] in multiset(xs);
      var j :| 0 <= j < |xs| && xs[j] == ys[FirstIndex(ys, k)];
      assert AgreeOn(t, xs[FirstIndex(xs, k)], xs[j]);
    }
    CommitOrderKeepsTable(t, xs, ys);
  }

  /** A row that disagrees with the first row of its new key. */
  lemma {:induction false} Dissenter(t: Table, rows: seq<Row>) returns (i: nat)
    requires !AgreeingNew(t, rows)
    ensures i < |rows| && rows[i].key !in t
    ensures rows[FirstIndex(rows, rows[i].key)].payload != rows[i].payload
  {
    var a: nat, b: nat :| a < |rows| && b < |rows| && !AgreeOn(t, rows[a], rows[b]);
    var first := rows[FirstIndex(rows, rows[a].key)];
    i := if first.payload != rows[a].payload then a else b;
  }

  /** A row inserted first wins its new key, whatever follows. */
  lemma {:induction false} HeadWins(t: Table, r: Row, rest: seq<Row>)
    requires r.key !in t
    ensures r.key in Insert(Insert(t, [r]), rest) && Insert(Insert(t, [r]), rest)[r.key] == r.payload
    ensures Insert(t, [r] + rest) == Insert(Insert(t, [r]), rest)
  {
    assert [r][..0] == [];
    LookupAfterInsert(Insert(t, [r]), rest, r.key);
    InsertConcat(t, [r], rest);
  }

  lemma {:induction false} MovedToFront(rows: seq<Row>, i: nat)
    requires i < |rows|
    ensures multiset([rows[i]] + Without(rows, i)) == multiset(rows)
  {
    MultisetWithout(rows, i);
  }

  /** Every commit order leaves the same table exactly when the rows agree on every key that is
      new to the table. */
  lemma {:induction false} OrderNeverShows(t: Table, rows: seq<Row>)
    ensures (forall ys :: SameTableInOrder(t, rows, ys)) <==> AgreeingNew(t, rows)
  {
    if AgreeingNew(t, rows) {
      forall ys ensures SameTableInOrder(t, rows, ys) {
        if multiset(ys) == multiset(rows) {
          AgreeingRowsCommute(t, rows, ys);
        }
      }
    } else {
      var i := Dissenter(t, rows);
      var ys := [rows[i]] + Without(rows, i);
      MovedToFront(rows, i);
      HeadWins(t, rows[i], Without(rows, i));
      LookupAfterInsert(t, rows, rows[i].key);
      assert !SameTableInOrder(t, rows, ys);
    }
  }

  /** What aborted runs left behind, run after run, followed by one full run. */
  function AfterRuns(t: Table, runs: seq<seq<Row>>, file: seq<Row>): (t': Table) {
    Insert(Insert(t, Flatten(runs)), file)
  }

  /** Rows inserted by each of the runs, in total. */
  function InsertedBy(t: Table, runs: seq<seq<Row>>): (n: int) {
    if runs == [] then 0
    else
      var before := Insert(t, Flatten(runs[..|runs| - 1]));
      InsertedBy(t, runs[..|runs| - 1]) + |Insert(before, runs[|runs| - 1])| - |before|
  }

  ghost predicate RowsOf(rows: seq<Row>, file: seq<Row>) {
    forall r :: r in rows ==> r in file
  }

  /** Any aborted runs over the same file, whatever they committed and in whatever order,
      followed by a full run: the keys are those of one uninterrupted run, and the rows
      inserted by all runs together are the distinct new keys. */
  lemma {:induction false} ReplayConverges(t: Table, runs: seq<seq<Row>>, file: seq<Row>)
    requires RowsOf(Flatten(runs), file)
    ensures AfterRuns(t, runs, file).Keys == Insert(t, file).Keys
    ensures InsertedBy(t, runs + [file]) == |Keys(file) - t.Keys|
  {
    RowsOfKeys(Flatten(runs), file);
    ReplayKeys(t, Flatten(runs), file);
    assert InsertedBy(t, runs + [file]) == |AfterRuns(t, runs, file)| - |t| by {
      InsertedTelescopes(t, runs + [file]);
      FlattenSnoc(runs, file);
      InsertConcat(t, Flatten(runs), file);
    }
    GrowthOf(t, AfterRuns(t, runs, file), Keys(file));
  }

  lemma {:induction false} GrowthOf(t: Table, t': Table, keys: set<Key>)
    requires t'.Keys == t.Keys + keys
    ensures |t'| - |t| == |keys - t.Keys|
  {
    assert |t'| == |t'.Keys| && |t| == |t.Keys|;
    assert t'.Keys == t.Keys + (keys - t.Keys);
  }

  lemma {:induction false} RowsOfKeys(rows: seq<Row>, file: seq<Row>)
    requires RowsOf(rows, file)
    ensures Keys(rows) <= Keys(file)
  {
    forall i | 0 <= i < |rows|
      ensures rows[i].key in Keys(file)
    {
      assert rows[i] in file;
    }
  }

  lemma {:induction false} ReplayKeys(t: Table, earlier: seq<Row>, file: seq<Row>)
    requires Keys(earlier) <= Keys(file)
    ensures Insert(Insert(t, earlier), file).Keys == Insert(t, file).Keys == t.Keys + Keys(file)
  {
    InsertIsFirstWins(t, earlier);
    InsertIsFirstWins(Insert(t, earlier), file);
    InsertIsFirstWins(t, file);
  }

  lemma {:induction false} InsertedTelescopes(t: Table, runs: seq<seq<Row>>)
    ensures InsertedBy(t, runs) == |Insert(t, Flatten(runs))| - |t|
  {
    if runs != [] {
      var init, last := runs[..|runs| - 1], runs[|runs| - 1];
      InsertedTelescopes(t, init);
      assert runs == init + [last];
      FlattenSnoc(init, last);
      InsertConcat(t, Flatten(init), last);
    }
  }

  /** The whole table is that of one uninterrupted run exactly when no aborted run let a
      later row of the file win a new key with another payload. */
  lemma {:induction false} ReplayTableExactly(t: Table, runs: seq<seq<Row>>, file: seq<Row>)
    requires RowsOf(Flatten(runs), file)
    ensures AfterRuns(t, runs, file) == Insert(t, file)
      <==> SameWinners(t, Flatten(runs), file)
  {
    var earlier := Flatten(runs);
    RowsOfKeys(earlier, file);
    ReplayKeys(t, earlier, file);
    var t1 := Insert(t, earlier);
    forall k | k in Insert(t, file)
      ensures Insert(t1, file)[k] == Insert(t, file)[k] <==>
        (k in Keys(earlier) && k !in t ==>
          earlier[FirstIndex(earlier, k)].payload == file[FirstIndex(file, k)].payload)
    {
      LookupAfterInsert(t, earlier, k);
      LookupAfterInsert(t1, file, k);
      LookupAfterInsert(t, file, k);
    }
  }

  ghost predicate ReplaysExactly(t: Table, runs: seq<seq<Row>>, file: seq<Row>) {
    RowsOf(Flatten(runs), file) ==> AfterRuns(t, runs, file) == Insert(t, file)
  }

  /** The row that wins a new key comes from the file, so it agrees with the file's first. */
  lemma {:induction false} AgreeingWinner(t: Table, committed: seq<Row>, file: seq<Row>, k: Key)
    requires AgreeingNew(t, file) && RowsOf(committed, file)
    requires k in Keys(committed) && k in Keys(file) && k !in t
    ensures committed[FirstIndex(committed, k)].payload == file[FirstIndex(file, k)].payload
  {
    assert committed[FirstIndex(committed, k)] in file;
    var j :| 0 <= j < |file| && file[j] == committed[FirstIndex(committed, k)];
    assert AgreeOn(t, file[j], file[FirstIndex(file, k)]);
  }

  lemma {:induction false} AgreeingRunsReplay(t: Table, runs: seq<seq<Row>>, file: seq<Row>)
    requires AgreeingNew(t, file) && RowsOf(Flatten(runs), file)
    ensures AfterRuns(t, runs, file) == Insert(t, file)
  {
    var earlier := Flatten(runs);
    forall k | k in Keys(earlier) && k in Keys(file) && k !in t
      ensures earlier[FirstIndex(earlier, k)].payload == file[FirstIndex(file, k)].payload
    {
      AgreeingWinner(t, earlier, file, k);
    }
    ReplayTableExactly(t, runs, file);
  }

  /** Replay restores the table of one uninterrupted run, whatever the aborted runs committed
      and in whatever order, exactly when the rows of the file agree on every new key. */
  lemma {:induction false} ReplayIsExactFor(t: Table, file: seq<Row>)
    ensures (forall runs :: ReplaysExactly(t, runs, file)) <==> AgreeingNew(t, file)
  {
    if AgreeingNew(t, file) {
      forall runs ensures ReplaysExactly(t, runs, file) {
        if RowsOf(Flatten(runs), file) {
          AgreeingRunsReplay(t, runs, file);
        }
      }
    } else {
      var i := Dissenter(t, file);
      FlattenOne([file[i]]);
      HeadWins(t, file[i], file);
      LookupAfterInsert(t, file, file[i].key);
      assert !ReplaysExactly(t, [[file[i]]], file);
    }
  }

  /** A later row of the file that an aborted run committed first keeps the key for good. */
  lemma {:induction false} FailingReplay()
    ensures var a, b := Row(Key("p", "k"), "a"), Row(Key("p", "k"), "b");
      && AfterRuns(map[], [[b]], [a, b]) == map[a.key := "b"]
      && Insert(map[], [a, b]) == map[a.key := "a"]
  {
    var a, b := Row(Key("p", "k"), "a"), Row(Key("p", "k"), "b");
    FlattenOne([b]);
    InsertSnoc(map[], [a], b);
    InsertSnoc(map[b.key := "b"], [a], b);
    InsertSnoc(map[], [], a);
    InsertSnoc(map[], [], b);
    InsertSnoc(map[b.key := "b"], [], a);
    assert [a, b] == [a] + [b] && [] + [a] == [a] && [] + [b] == [b];
  }

  /** Nor do writes of aborted runs that commit in the middle of the last run matter to the keys:
      once every row of the file is committed, in whatever order and however often, the keys are
      those of one uninterrupted run. */
  lemma {:induction false} LateCommitsKeepKeys(t: Table, committed: seq<Row>, file: seq<Row>)
    requires RowsOf(committed, file) && RowsOf(file, committed)
    ensures Insert(t, committed).Keys == Insert(t, file).Keys
  {
    RowsOfKeys(committed, file);
    RowsOfKeys(file, committed);
    InsertIsFirstWins(t, committed);
    InsertIsFirstWins(t, file);
  }

  lemma {:induction false} LateCommitsKeepTable(t: Table, committed: seq<Row>, file: seq<Row>)
    requires AgreeingNew(t, file) && RowsOf(committed, file) && RowsOf(file, committed)
    ensures Insert(t, committed) == Insert(t, file)
  {
    LateCommitsKeepKeys(t, committed, file);
    forall k | k in Insert(t, file) ensures Insert(t, committed)[k] == Insert(t, file)[k] {
      LookupAfterInsert(t, committed, k);
      LookupAfterInsert(t, file, k);
      if k !in t {
        AgreeingWinner(t, committed, file, k);
      }
    }
  }

  /** One writer commits a prefix of the file in every aborted run, so replay restores
      the uninterrupted table whatever the payloads are. */
  lemma {:induction false} PrefixRunsReplayExactly(t: Table, runs: seq<seq<Row>>, file: seq<Row>)
    requires forall i :: 0 <= i < |runs| ==> runs[i] <= file
    ensures AfterRuns(t, runs, file) == Insert(t, file)
  {
    if runs == [] {
    } else {
      var init, last := runs[..|runs| - 1], runs[|runs| - 1];
      var before := Insert(t, Flatten(init));
      PrefixRunsReplayExactly(t, init, file);
      assert runs == init + [last];
      FlattenSnoc(init, last);
      InsertConcat(t, Flatten(init), last);
      assert AfterRuns(t, runs, file) == Insert(Insert(before, last), file);
      PrefixIsAbsorbed(before, last, file);
    }
  }

  lemma {:induction false} PrefixIsAbsorbed(t: Table, prefix: seq<Row>, file: seq<Row>)
    requires prefix <= file
    ensures Insert(Insert(t, prefix), file) == Insert(t, file)
  {
    assert file == prefix + file[|prefix|..];
    var t1 := Insert(t, prefix);
    InsertConcat(t1, prefix, file[|prefix|..]);
    InsertConcat(t, prefix, file[|prefix|..]);
    InsertIsFirstWins(t, prefix);
    InsertPresent(t1, prefix);
  }

  // ---------------------------------------------------------------------------
  // One batch write: row by row
  // ---------------------------------------------------------------------------

  /** Evidence for one row that met an existing key. */
  datatype Duplicate = Duplicate(incomingIndex: nat, key: Key, incoming: string, existing: string)
  {
    predicate IsConflicting() { incoming != existing }
  }

  datatype WriteOutcome = WriteOutcome(
    table: Table, inserted: nat, duplicates: seq<Duplicate>, failed: nat)

  /** The first `n` rows of a batch, written in order. The rows in `failing` are reported
      failed and leave no trace. */
  function WriteRows(t: Table, rows: seq<Row>, failing: set<nat>, n: nat): (w: WriteOutcome)
    requires n <= |rows|
  {
    if n == 0 then WriteOutcome(t, 0, [], 0)
    else WriteRow(WriteRows(t, rows, failing, n - 1), rows[n - 1], n - 1, n - 1 in failing)
  }

  function WriteRow(w: WriteOutcome, r: Row, i: nat, fails: bool): (w': WriteOutcome) {
    if fails then w.(failed := w.failed + 1)
    else if r.key in w.table then
      w.(duplicates := w.duplicates + [Duplicate(i, r.key, r.payload, w.table[r.key])])
    else w.(table := w.table[r.key := r.payload], inserted := w.inserted + 1)
  }

  /** Every row of a batch is inserted, a duplicate or failed, and the table grows by the
      rows reported inserted. */
  lemma {:induction false} WriteAccounting(t: Table, rows: seq<Row>, failing: set<nat>, n: nat)
    requires n <= |rows|
    ensures var w := WriteRows(t, rows, failing, n);
      w.inserted + |w.duplicates| + w.failed == n && |w.table| == |t| + w.inserted
  {
    if n > 0 {
      WriteAccounting(t, rows, failing, n - 1);
    }
  }

  lemma {:induction false} WriteRowTable(w: WriteOutcome, r: Row, i: nat, fails: bool)
    ensures WriteRow(w, r, i, fails).table == if fails then w.table else Put(w.table, r)
    ensures WriteRow(w, r, i, fails).failed == if fails then w.failed + 1 else w.failed
  {
  }

  /** The rows not reported failed are the ones the table absorbed. */
  lemma {:induction false} WriteAbsorbs(t: Table, rows: seq<Row>, failing: set<nat>, n: nat)
    requires n <= |rows|
    ensures WriteRows(t, rows, failing, n).table == Insert(t, Accepted(rows, failing, n))
    ensures |Accepted(rows, failing, n)| + WriteRows(t, rows, failing, n).failed == n
  {
    if n > 0 {
      WriteAbsorbs(t, rows, failing, n - 1);
      WriteRowTable(WriteRows(t, rows, failing, n - 1), rows[n - 1], n - 1, n - 1 in failing);
      InsertSnoc(t, Accepted(rows, failing, n - 1), rows[n - 1]);
    }
  }

  /** The evidence of `d` is what the table holds. */
  predicate Meets(d: Duplicate, t: Table) { d.key in t && d.existing == t[d.key] }

  predicate InOrder(ds: seq<Duplicate>) {
    forall i, j :: 0 <= i < j < |ds| ==> ds[i].incomingIndex < ds[j].incomingIndex
  }

  /** Duplicates are listed in the order of their rows, each with the payload the table holds. */
  lemma {:induction false} DuplicatesMeetTable(t: Table, rows: seq<Row>, failing: set<nat>, n: nat)
    requires n <= |rows|
    ensures var w := WriteRows(t, rows, failing, n);
      InOrder(w.duplicates) && forall d :: d in w.duplicates ==> Meets(d, w.table) && d.incomingIndex < n
  {
    if n > 0 {
      DuplicatesMeetTable(t, rows, failing, n - 1);
    }
  }

  /** A written row is in the table, or a duplicate was reported for it. */
  ghost predicate Kept(r: Row, i: nat, ds: seq<Duplicate>, t: Table) {
    r.key in t && (t[r.key] == r.payload || exists d :: d in ds && d.incomingIndex == i)
  }

  lemma {:induction false} WrittenRowsKept(t: Table, rows: seq<Row>, failing: set<nat>, n: nat,
                                           i: nat)
    requires i < n <= |rows| && i !in failing
    ensures var w := WriteRows(t, rows, failing, n); Kept(rows[i], i, w.duplicates, w.table)
  {
    var w0 := WriteRows(t, rows, failing, n - 1);
    var w := WriteRow(w0, rows[n - 1], n - 1, n - 1 in failing);
    if i == n - 1 {
      if rows[i].key in w0.table {
        assert w.duplicates[|w0.duplicates|].incomingIndex == i;
      }
    } else {
      WrittenRowsKept(t, rows, failing, n - 1, i);
      assert forall d :: d in w0.duplicates ==> d in w.duplicates;
    }
  }

  lemma {:induction false} NoneFailing(t: Table, rows: seq<Row>, failing: set<nat>, n: nat)
    requires n <= |rows| && WriteRows(t, rows, failing, n).failed == 0
    ensures forall i :: 0 <= i < n ==> i !in failing
  {
    if n > 0 {
      NoneFailing(t, rows, failing, n - 1);
    }
  }

  /** The rows that were not reported failed, in order. */
  function Accepted(rows: seq<Row>, failing: set<nat>, n: nat): (kept: seq<Row>)
    requires n <= |rows|
  {
    if n == 0 then []
    else if n - 1 in failing then Accepted(rows, failing, n - 1)
    else Accepted(rows, failing, n - 1) + [rows[n - 1]]
  }

  /** With nothing reported failed, every row of the batch is written, in order. */
  lemma {:induction false} NoneFailedAllAccepted(t: Table, rows: seq<Row>, failing: set<nat>,
                                                 n: nat)
    requires n <= |rows| && WriteRows(t, rows, failing, n).failed == 0
    ensures Accepted(rows, failing, n) == rows[..n]
  {
    if n > 0 {
      NoneFailedAllAccepted(t, rows, failing, n - 1);
      TakeOneMore(rows, n);
    }
  }

  lemma {:induction false} AcceptedAreRows(rows: seq<Row>, failing: set<nat>, n: nat)
    requires n <= |rows|
    ensures forall r :: r in Accepted(rows, failing, n) ==> r in rows
  {
    if n > 0 {
      AcceptedAreRows(rows, failing, n - 1);
    }
  }
}
