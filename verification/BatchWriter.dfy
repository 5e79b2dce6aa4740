/** Bounded concurrent batch writes: at most `workers - 1` writes stay pending between
    submissions, and a drain lets them commit in any order. */
module BatchWriter {
  import opened Sequences
  import opened TransactionTable
  import opened Contracts

  // ---------------------------------------------------------------------------
  // The repository port
  // ---------------------------------------------------------------------------

  /** What `insert_many` does: commit the batch atomically and report, or raise, before the
      commit or after it, while it looks up the rows that were met. The reported failure count is
      the adapter's own claim. */
  datatype Reply = Raised | Replied(inserted: nat, duplicates: seq<Duplicate>, failed: nat)

  class PartnerTransactionWriter {
    var table: Table
    ghost const initial: Table
    /** Rows the table absorbed, in commit order, and how many rows it refused. */
    ghost var committed: seq<Row>
    ghost var dropped: nat

    ghost predicate Valid()
      reads this
    {
      table == Insert(initial, committed)
    }

    constructor (t: Table)
      ensures Valid() && table == initial == t && committed == [] && dropped == 0
    {
      table, initial, committed, dropped := t, t, [], 0;
    }

    /** The environment decides whether the call raises and whether it has committed by then,
        which rows it refuses, in which order it lists duplicates, and what failure count it
        reports. */
    method InsertMany(batch: seq<Row>) returns (reply: Reply, ghost failing: set<nat>, ghost took: bool)
      requires Valid()
      modifies this
      ensures Valid()
      ensures !took ==>
        (reply.Raised? && table == old(table) && committed == old(committed) && dropped == old(dropped))
      ensures took ==>
        (var w := WriteRows(old(table), batch, failing, |batch|);
         && table == w.table && committed == old(committed) + Accepted(batch, failing, |batch|)
         && dropped == old(dropped) + w.failed
         && (reply.Replied? ==>
               reply.inserted == w.inserted && multiset(reply.duplicates) == multiset(w.duplicates)))
    {
      failing, took := {}, false;
      if * {
        return Raised, failing, took;
      }
      var refused: set<nat> := *;
      var inserted, duplicates := 0, [];
      ghost var w0 := WriteOutcome(table, 0, [], 0);
      for i := 0 to |batch|
        invariant WriteRows(old(table), batch, refused, i)
          == WriteOutcome(table, inserted, duplicates,
                          WriteRows(old(table), batch, refused, i).failed)
        invariant committed == old(committed) && dropped == old(dropped)
      {
        var r := batch[i];
        if i in refused {
        } else if r.key in table {
          duplicates := duplicates + [Duplicate(i, r.key, r.payload, table[r.key])];
        } else {
          table := table[r.key := r.payload];
          inserted := inserted + 1;
        }
      }
      committed := committed + Accepted(batch, refused, |batch|);
      dropped := dropped + WriteRows(old(table), batch, refused, |batch|).failed;
      WriteAbsorbs(old(table), batch, refused, |batch|);
      InsertConcat(initial, old(committed), Accepted(batch, refused, |batch|));
      failing, took := refused, true;
      if * {
        return Raised, failing, took;
      }
      var failed: nat := *;
      assert multiset(duplicates) == multiset(duplicates);
      var reported :| multiset(reported) == multiset(duplicates);
      reply := Replied(inserted, reported, failed);
    }
  }

  // ---------------------------------------------------------------------------
  // Results of writes
  // ---------------------------------------------------------------------------

  datatype Write = Write(batch: seq<Row>, contexts: seq<RowContext>)

  /** A conflicting duplicate carries the context of the very row that conflicted. */
  predicate Describes(d: DuplicateDetail, w: Write) {
    var i := d.duplicate.incomingIndex;
    && i < |w.batch| == |w.contexts|
    && d.duplicate.key == w.batch[i].key
    && d.duplicate.incoming == w.batch[i].payload
    && d.context == if d.duplicate.IsConflicting() then Some(w.contexts[i]) else None
  }

  ghost predicate ResultFor(r: BatchResult, w: Write) {
    && r.Attempted() == |w.batch|
    && |r.details| == r.duplicates
    && forall d {:trigger Describes(d, w)} :: d in r.details ==> Describes(d, w)
  }

  /** The result reports what writing the batch did, duplicate by duplicate, in some order. */
  ghost predicate Reports(r: BatchResult, w: WriteOutcome) {
    && r.inserted == w.inserted && r.failed == w.failed
    && multiset(Evidence(r.details)) == multiset(w.duplicates)
  }

  function Evidence(details: seq<DuplicateDetail>): (ds: seq<Duplicate>)
    ensures |ds| == |details| && forall i :: 0 <= i < |ds| ==> ds[i] == details[i].duplicate
  {
    seq(|details|, i requires 0 <= i < |details| => details[i].duplicate)
  }

  /** No row was reported twice. */
  predicate OnePerRow(ds: seq<Duplicate>) {
    forall i, j :: 0 <= i < j < |ds| ==> ds[i].incomingIndex != ds[j].incomingIndex
  }

  ghost predicate AllMeet(ds: seq<Duplicate>, t: Table) {
    forall d :: d in ds ==> Meets(d, t)
  }

  ghost predicate AllKept(rows: seq<Row>, ds: seq<Duplicate>, t: Table) {
    forall i :: 0 <= i < |rows| ==> Kept(rows[i], i, ds, t)
  }

  /** What a settled write reported still holds of the table `t`: each duplicate once, with the
      payload that `t` holds, and, if no row failed, one for every row whose payload is not the
      one that `t` holds. */
  ghost predicate Truthful(r: BatchResult, w: Write, t: Table) {
    var ds := Evidence(r.details);
    OnePerRow(ds) && AllMeet(ds, t) && (r.failed == 0 ==> AllKept(w.batch, ds, t))
  }

  lemma {:induction false} TruthfulExtends(r: BatchResult, w: Write, t: Table, t': Table)
    requires Truthful(r, w, t) && Extends(t, t')
    ensures Truthful(r, w, t')
  {
    var ds := Evidence(r.details);
    forall d | d in ds ensures Meets(d, t') {
      assert Meets(d, t);
    }
    if r.failed == 0 {
      forall i | 0 <= i < |w.batch| ensures Kept(w.batch[i], i, ds, t') {
        assert Kept(w.batch[i], i, ds, t);
      }
    }
  }

  lemma {:induction false} InOrderPermuted(ds: seq<Duplicate>, reported: seq<Duplicate>)
    requires InOrder(ds) && multiset(reported) == multiset(ds)
    ensures OnePerRow(reported)
  {
    DistinctPermutes(ds, reported);
    forall i, j | 0 <= i < j < |reported|
      ensures reported[i].incomingIndex != reported[j].incomingIndex
    {
      assert reported[i] in multiset(ds) && reported[j] in multiset(ds);
    }
  }

  lemma {:induction false} ReportsAreTruthful(r: BatchResult, w: Write, t: Table, failing: set<nat>)
    requires Reports(r, WriteRows(t, w.batch, failing, |w.batch|))
    ensures Truthful(r, w, WriteRows(t, w.batch, failing, |w.batch|).table)
  {
    var n, ds := |w.batch|, Evidence(r.details);
    var o := WriteRows(t, w.batch, failing, n);
    DuplicatesMeetTable(t, w.batch, failing, n);
    SameMembers(ds, o.duplicates);
    SameMembers(o.duplicates, ds);
    InOrderPermuted(o.duplicates, ds);
    if r.failed == 0 {
      NoneFailing(t, w.batch, failing, n);
      forall i | 0 <= i < n ensures Kept(w.batch[i], i, ds, o.table) {
        WrittenRowsKept(t, w.batch, failing, n, i);
      }
    }
  }

  /** All settled results are truthful about the table. */
  ghost predicate Honest(rs: seq<BatchResult>, ws: seq<Write>, t: Table) {
    && |rs| == |ws|
    && forall i {:trigger Truthful(rs[i], ws[i], t)} :: 0 <= i < |rs| ==> Truthful(rs[i], ws[i], t)
  }

  lemma {:induction false} HonestExtends(rs: seq<BatchResult>, ws: seq<Write>, t: Table, t': Table)
    requires Honest(rs, ws, t) && Extends(t, t')
    ensures Honest(rs, ws, t')
  {
    forall i | 0 <= i < |rs| ensures Truthful(rs[i], ws[i], t') {
      TruthfulExtends(rs[i], ws[i], t, t');
    }
  }

  lemma {:induction false} HonestConcat(rs: seq<BatchResult>, ws: seq<Write>,
                                        more: seq<BatchResult>, writes: seq<Write>, t: Table)
    requires Honest(rs, ws, t) && Honest(more, writes, t)
    ensures Honest(rs + more, ws + writes, t)
  {
    forall i | 0 <= i < |rs + more| ensures Truthful((rs + more)[i], (ws + writes)[i], t) {
      if i >= |rs| {
        assert Truthful(more[i - |rs|], writes[i - |rs|], t);
      }
    }
  }

  datatype Totals = Totals(inserted: nat, duplicates: nat, failed: nat)

  function Total(rs: seq<BatchResult>): (t: Totals) {
    if rs == [] then Totals(0, 0, 0)
    else
      var t, r := Total(rs[..|rs| - 1]), rs[|rs| - 1];
      Totals(t.inserted + r.inserted, t.duplicates + r.duplicates, t.failed + r.failed)
  }

  const NOTHING := BatchResult(0, 0, 0, [])

  lemma {:induction false} TotalUpdate(rs: seq<BatchResult>, i: nat, r: BatchResult)
    requires i < |rs| && rs[i] == NOTHING
    ensures var t := Total(rs);
      Total(rs[i := r]) == Totals(t.inserted + r.inserted, t.duplicates + r.duplicates,
                                  t.failed + r.failed)
  {
    var n := |rs| - 1;
    if i == n {
      assert rs[i := r][..n] == rs[..n];
    } else {
      assert rs[i := r][..n] == rs[..n][i := r];
      TotalUpdate(rs[..n], i, r);
    }
  }

  function Nothings(n: nat): (rs: seq<BatchResult>)
    ensures |rs| == n && forall i :: 0 <= i < n ==> rs[i] == NOTHING
    ensures Total(rs) == Totals(0, 0, 0)
  {
    if n == 0 then [] else Nothings(n - 1) + [NOTHING]
  }

  lemma {:induction false} TotalConcat(a: seq<BatchResult>, b: seq<BatchResult>)
    ensures var t, u := Total(a), Total(b);
      Total(a + b) == Totals(t.inserted + u.inserted, t.duplicates + u.duplicates,
                             t.failed + u.failed)
  {
    if b == [] {
      assert a + b == a;
    } else {
      assert (a + b)[..|a + b| - 1] == a + b[..|b| - 1];
      TotalConcat(a, b[..|b| - 1]);
    }
  }

  function Batches(ws: seq<Write>): (batches: seq<seq<Row>>)
    ensures |batches| == |ws|
    ensures forall i :: 0 <= i < |ws| ==> batches[i] == ws[i].batch
  {
    seq(|ws|, i requires 0 <= i < |ws| => ws[i].batch)
  }

  /** All rows handed to the writer, in the order of submission. */
  function SubmittedRows(ws: seq<Write>): (rows: seq<Row>) { Flatten(Batches(ws)) }

  lemma {:induction false} SubmittedConcat(a: seq<Write>, b: seq<Write>)
    ensures SubmittedRows(a + b) == SubmittedRows(a) + SubmittedRows(b)
  {
    assert Batches(a + b) == Batches(a) + Batches(b);
    FlattenConcat(Batches(a), Batches(b));
  }

  lemma {:induction false} SubmittedSnoc(ws: seq<Write>, w: Write)
    ensures SubmittedRows(ws + [w]) == SubmittedRows(ws) + w.batch
  {
    assert Batches(ws + [w]) == Batches(ws) + [w.batch];
    FlattenSnoc(Batches(ws), w.batch);
  }

  lemma {:induction false} MultisetsAdd(rows: seq<Row>, part: seq<Row>, all: multiset<Row>)
    requires multiset(rows) == all
    ensures multiset(rows + part) == all + multiset(part)
  {
  }

  lemma {:induction false} FlattenUpdate(parts: seq<seq<Row>>, i: nat, part: seq<Row>)
    requires i < |parts| && parts[i] == []
    ensures multiset(Flatten(parts[i := part])) == multiset(Flatten(parts)) + multiset(part)
  {
    var n := |parts| - 1;
    var init := parts[..n];
    MultisetsAdd(Flatten(init), parts[n], multiset(Flatten(init)));
    if i == n {
      assert parts[i := part][..n] == init;
      MultisetsAdd(Flatten(init), part, multiset(Flatten(init)));
    } else {
      assert parts[i := part][..n] == init[i := part];
      FlattenUpdate(init, i, part);
      MultisetsAdd(Flatten(init[i := part]), parts[n], multiset(Flatten(init)) + multiset(part));
    }
  }

  function Empties(n: nat): (parts: seq<seq<Row>>)
    ensures |parts| == n && forall i :: 0 <= i < n ==> parts[i] == []
    ensures Flatten(parts) == []
  {
    if n == 0 then [] else Empties(n - 1) + [[]]
  }

  lemma {:induction false} DuplicatesDescribeRows(t: Table, rows: seq<Row>, failing: set<nat>,
                                                  n: nat)
    requires n <= |rows|
    ensures forall d :: d in WriteRows(t, rows, failing, n).duplicates ==>
      && d.incomingIndex < n && d.key == rows[d.incomingIndex].key
      && d.incoming == rows[d.incomingIndex].payload
  {
    if n > 0 {
      DuplicatesDescribeRows(t, rows, failing, n - 1);
    }
  }

  lemma {:induction false} SameMembers<T>(xs: seq<T>, ys: seq<T>)
    requires multiset(xs) == multiset(ys)
    ensures |xs| == |ys| && forall x :: x in xs ==> x in ys
  {
    assert |multiset(xs)| == |xs| && |multiset(ys)| == |ys|;
    assert forall x :: x in xs ==> x in multiset(ys);
  }

  // ---------------------------------------------------------------------------
  // The coordinator
  // ---------------------------------------------------------------------------

  /** Rows the table took over from some writes: none of them foreign, and all of them, as
      often as they were submitted, unless the repository dropped rows. */
  ghost predicate Absorbed(rows: seq<Row>, submitted: seq<Row>, dropped: nat) {
    && |rows| + dropped == |submitted|
    && (dropped == 0 ==> multiset(rows) == multiset(submitted))
    && RowsOf(rows, submitted)
  }

  /** Every write has its result, the results account for every row, and the reported
      inserts are the growth of the table. */
  ghost predicate Settled(rs: seq<BatchResult>, ws: seq<Write>, growth: int, dropped: int) {
    && |rs| == |ws|
    && (forall i {:trigger ResultFor(rs[i], ws[i])} :: 0 <= i < |rs| ==> ResultFor(rs[i], ws[i]))
    && Total(rs).inserted == growth
    && Total(rs).failed == dropped
  }

  lemma {:induction false} SettledConcat(rs: seq<BatchResult>, ws: seq<Write>, growth: int,
                                         dropped: int, more: seq<BatchResult>, writes: seq<Write>,
                                         grown: int, lost: int)
    requires Settled(rs, ws, growth, dropped) && Settled(more, writes, grown, lost)
    ensures Settled(rs + more, ws + writes, growth + grown, dropped + lost)
  {
    TotalConcat(rs, more);
    forall i | 0 <= i < |rs + more|
      ensures ResultFor((rs + more)[i], (ws + writes)[i])
    {
      ResultConcat(rs, ws, more, writes, i);
    }
  }

  lemma {:induction false} ResultConcat(rs: seq<BatchResult>, ws: seq<Write>,
                                        more: seq<BatchResult>, writes: seq<Write>, i: nat)
    requires |rs| == |ws| && |more| == |writes| && i < |rs + more|
    requires i < |rs| ==> ResultFor(rs[i], ws[i])
    requires i >= |rs| ==> ResultFor(more[i - |rs|], writes[i - |rs|])
    ensures ResultFor((rs + more)[i], (ws + writes)[i])
  {
    if i < |rs| {
      assert (rs + more)[i] == rs[i] && (ws + writes)[i] == ws[i];
    } else {
      assert (rs + more)[i] == more[i - |rs|] && (ws + writes)[i] == writes[i - |rs|];
    }
  }

  lemma {:induction false} AbsorbedConcat(rows: seq<Row>, submitted: seq<Row>, dropped: nat,
                                          more: seq<Row>, written: seq<Row>, lost: nat)
    requires Absorbed(rows, submitted, dropped) && Absorbed(more, written, lost)
    ensures Absorbed(rows + more, submitted + written, dropped + lost)
  {
  }

  /** The settled writes have their results, the results account for every row, and a single
      writer that dropped nothing wrote the rows in the order of submission. */
  ghost predicate Books(done: seq<Write>, settled: seq<BatchResult>, absorbed: seq<Row>,
                        growth: int, dropped: int, inOrder: bool)
  {
    && dropped >= 0
    && Settled(settled, done, growth, dropped)
    && Absorbed(absorbed, SubmittedRows(done), dropped)
    && (inOrder && dropped == 0 ==> absorbed == SubmittedRows(done))
  }

  lemma {:induction false} BooksStep(done: seq<Write>, settled: seq<BatchResult>,
                                     absorbed: seq<Row>, growth: int, dropped: int, inOrder: bool,
                                     ws: seq<Write>, rs: seq<BatchResult>, rows: seq<Row>,
                                     grown: int, lost: int)
    requires Books(done, settled, absorbed, growth, dropped, inOrder)
    requires Books(ws, rs, rows, grown - growth, lost - dropped, inOrder)
    ensures Books(done + ws, settled + rs, absorbed + rows, grown, lost, inOrder)
  {
    SettledConcat(settled, done, growth, dropped, rs, ws, grown - growth, lost - dropped);
    SubmittedConcat(done, ws);
    AbsorbedConcat(absorbed, SubmittedRows(done), dropped, rows, SubmittedRows(ws), lost - dropped);
  }

  /** One settled write: its result, and the rows of its batch that the table took over. */
  ghost predicate WrittenAs(r: BatchResult, w: Write, part: seq<Row>) {
    && ResultFor(r, w)
    && |part| + r.failed == |w.batch|
    && (r.failed == 0 ==> part == w.batch)
    && RowsOf(part, w.batch)
  }

  lemma {:induction false} WriteLaws(t: Table, batch: seq<Row>, failing: set<nat>)
    ensures var w, rows := WriteRows(t, batch, failing, |batch|), Accepted(batch, failing, |batch|);
      && w.inserted + |w.duplicates| + w.failed == |batch| && |w.table| == |t| + w.inserted
      && |rows| + w.failed == |batch| && (w.failed == 0 ==> rows == batch) && RowsOf(rows, batch)
  {
    WriteAccounting(t, batch, failing, |batch|);
    WriteAbsorbs(t, batch, failing, |batch|);
    AcceptedAreRows(batch, failing, |batch|);
    if WriteRows(t, batch, failing, |batch|).failed == 0 {
      NoneFailedAllAccepted(t, batch, failing, |batch|);
      assert batch[..|batch|] == batch;
    }
  }

  lemma {:induction false} InFlatten(parts: seq<seq<Row>>, i: nat, r: Row)
    requires i < |parts| && r in parts[i]
    ensures r in Flatten(parts)
  {
    if i < |parts| - 1 {
      InFlatten(parts[..|parts| - 1], i, r);
    }
  }

  lemma {:induction false} FromFlatten(parts: seq<seq<Row>>, r: Row) returns (i: nat)
    requires r in Flatten(parts)
    ensures i < |parts| && r in parts[i]
  {
    if r in parts[|parts| - 1] {
      i := |parts| - 1;
    } else {
      i := FromFlatten(parts[..|parts| - 1], r);
    }
  }

  lemma {:induction false} PartsAreRows(parts: seq<seq<Row>>, ws: seq<Write>, rows: seq<Row>)
    requires |parts| == |ws| && multiset(rows) == multiset(Flatten(parts))
    requires forall i :: 0 <= i < |ws| ==> RowsOf(parts[i], ws[i].batch)
    ensures RowsOf(rows, SubmittedRows(ws))
  {
    forall r | r in rows ensures r in SubmittedRows(ws) {
      assert r in multiset(Flatten(parts));
      var i := FromFlatten(parts, r);
      InFlatten(Batches(ws), i, r);
    }
  }

  lemma {:induction false} PartsCount(done: seq<BatchResult>, ws: seq<Write>, parts: seq<seq<Row>>)
    requires |done| == |ws| == |parts|
    requires forall i :: 0 <= i < |ws| ==> WrittenAs(done[i], ws[i], parts[i])
    ensures |Flatten(parts)| + Total(done).failed == |SubmittedRows(ws)|
    ensures Total(done).failed == 0 ==> Flatten(parts) == SubmittedRows(ws)
  {
    if ws != [] {
      var n := |ws| - 1;
      PartsCount(done[..n], ws[..n], parts[..n]);
      assert Batches(ws)[..n] == Batches(ws[..n]);
      assert WrittenAs(done[n], ws[n], parts[n]);
    }
  }

  lemma {:induction false} PartsAbsorbed(done: seq<BatchResult>, ws: seq<Write>,
                                         parts: seq<seq<Row>>, rows: seq<Row>)
    requires |done| == |ws| == |parts| && multiset(rows) == multiset(Flatten(parts))
    requires forall i :: 0 <= i < |ws| ==> WrittenAs(done[i], ws[i], parts[i])
    ensures Absorbed(rows, SubmittedRows(ws), Total(done).failed)
  {
    PartsCount(done, ws, parts);
    PartsAreRows(parts, ws, rows);
    SameMembers(rows, Flatten(parts));
  }

  /** How far a drain has got: the writes in `todo` are still to commit, the others are
      settled. */
  ghost predicate Underway(ws: seq<Write>, todo: set<nat>, done: seq<BatchResult>, parts: seq<seq<Row>>) {
    && |done| == |parts| == |ws|
    && (forall i :: i in todo ==> i < |ws| && done[i] == NOTHING && parts[i] == [])
    && (forall i :: 0 <= i < |ws| && i !in todo ==> WrittenAs(done[i], ws[i], parts[i]))
  }

  /** `rows` are what the table took over so far. */
  ghost predicate Progress(
    ws: seq<Write>, todo: set<nat>, done: seq<BatchResult>, parts: seq<seq<Row>>, rows: seq<Row>)
  {
    Underway(ws, todo, done, parts) && multiset(rows) == multiset(Flatten(parts))
  }

  lemma {:induction false} UnderwayStep(ws: seq<Write>, todo: set<nat>, done: seq<BatchResult>,
                                        parts: seq<seq<Row>>, i: nat, r: BatchResult,
                                        part: seq<Row>)
    requires Underway(ws, todo, done, parts) && i in todo && WrittenAs(r, ws[i], part)
    ensures Underway(ws, todo - {i}, done[i := r], parts[i := part])
  {
  }

  lemma {:induction false} ProgressStep(ws: seq<Write>, todo: set<nat>, done: seq<BatchResult>,
                                        parts: seq<seq<Row>>, rows: seq<Row>, i: nat,
                                        r: BatchResult, part: seq<Row>)
    requires Progress(ws, todo, done, parts, rows) && i in todo && WrittenAs(r, ws[i], part)
    ensures Progress(ws, todo - {i}, done[i := r], parts[i := part], rows + part)
    ensures Total(done[i := r]).inserted == Total(done).inserted + r.inserted
    ensures Total(done[i := r]).failed == Total(done).failed + r.failed
  {
    UnderwayStep(ws, todo, done, parts, i, r, part);
    TotalUpdate(done, i, r);
    FlattenUpdate(parts, i, part);
    MultisetsAdd(rows, part, multiset(Flatten(parts)));
  }

  lemma {:induction false} ProgressAborts(ws: seq<Write>, todo: set<nat>, done: seq<BatchResult>,
                                          parts: seq<seq<Row>>, rows: seq<Row>, i: nat,
                                          part: seq<Row>)
    requires Progress(ws, todo, done, parts, rows) && i in todo && RowsOf(part, ws[i].batch)
    ensures RowsOf(rows + part, SubmittedRows(ws))
  {
    FlattenUpdate(parts, i, part);
    PartsAreRows(parts[i := part], ws, rows + part);
  }

  /** The writes no longer in `todo` are truthful about the table. */
  ghost predicate HonestSoFar(ws: seq<Write>, todo: set<nat>, done: seq<BatchResult>, t: Table) {
    && |done| == |ws|
    && forall i {:trigger Truthful(done[i], ws[i], t)} :: 0 <= i < |ws| && i !in todo ==>
         Truthful(done[i], ws[i], t)
  }

  lemma {:induction false} HonestStep(ws: seq<Write>, todo: set<nat>, done: seq<BatchResult>,
                                      t: Table, t': Table, i: nat, r: BatchResult)
    requires HonestSoFar(ws, todo, done, t) && Extends(t, t')
    requires i < |ws| && Truthful(r, ws[i], t')
    ensures HonestSoFar(ws, todo - {i}, done[i := r], t')
  {
    forall k | 0 <= k < |ws| && k !in todo - {i} ensures Truthful(done[i := r][k], ws[k], t') {
      if k != i {
        TruthfulExtends(done[k], ws[k], t, t');
      }
    }
  }

  /** The whole state of a drain, with the growth of the table and the rows it refused. */
  ghost predicate Gathering(ws: seq<Write>, todo: set<nat>, done: seq<BatchResult>,
                            parts: seq<seq<Row>>, rows: seq<Row>, t: Table, growth: int, lost: int)
  {
    && Progress(ws, todo, done, parts, rows) && HonestSoFar(ws, todo, done, t)
    && Total(done).inserted == growth && Total(done).failed == lost
  }

  lemma {:induction false} GatheringStep(ws: seq<Write>, todo: set<nat>, done: seq<BatchResult>,
                                         parts: seq<seq<Row>>, rows: seq<Row>, t: Table,
                                         growth: int, lost: int, i: nat, r: BatchResult,
                                         part: seq<Row>, t': Table, growth': int, lost': int)
    requires Gathering(ws, todo, done, parts, rows, t, growth, lost) && i in todo
    requires WrittenAs(r, ws[i], part) && Truthful(r, ws[i], t') && Extends(t, t')
    requires growth' == growth + r.inserted && lost' == lost + r.failed
    ensures Gathering(ws, todo - {i}, done[i := r], parts[i := part], rows + part, t', growth', lost')
  {
    ProgressStep(ws, todo, done, parts, rows, i, r, part);
    HonestStep(ws, todo, done, t, t', i, r);
  }

  lemma {:induction false} Gathered(ws: seq<Write>, done: seq<BatchResult>, parts: seq<seq<Row>>,
                                    rows: seq<Row>, t: Table, growth: int, lost: int)
    requires Gathering(ws, {}, done, parts, rows, t, growth, lost)
    ensures Books(ws, done, rows, growth, lost, false) && Honest(done, ws, t)
  {
    PartsAbsorbed(done, ws, parts, rows);
  }

  lemma {:induction false} PartIsSubmitted(ws: seq<Write>, i: nat, part: seq<Row>)
    requires i < |ws| && RowsOf(part, ws[i].batch)
    ensures RowsOf(part, SubmittedRows(ws))
  {
    forall r | r in part ensures r in SubmittedRows(ws) {
      InFlatten(Batches(ws), i, r);
    }
  }

  function Indexes(n: nat): (all: set<nat>)
    ensures forall i: nat :: i in all <==> i < n
  {
    if n == 0 then {} else Indexes(n - 1) + {n - 1}
  }

  class BatchWriteCoordinator {
    const repository: PartnerTransactionWriter
    const workers: nat
    var pending: seq<Write>

    ghost predicate Valid()
      reads this, repository
    {
      repository.Valid() && workers >= 1 && |pending| < workers
    }

    constructor (repository: PartnerTransactionWriter, workers: nat)
      requires repository.Valid() && workers >= 1
      ensures Valid() && pending == []
      ensures this.repository == repository && this.workers == workers
    {
      this.repository, this.workers, pending := repository, workers, [];
    }

    /** One write; `None` when it raised, before or after its commit. */
    method WriteBatch(w: Write)
      returns (result: Option<BatchResult>, ghost rows: seq<Row>, ghost failing: set<nat>)
      requires repository.Valid()
      modifies repository
      ensures repository.Valid() && repository.committed == old(repository.committed) + rows
      ensures old(|repository.table|) <= |repository.table|
      ensures Extends(old(repository.table), repository.table)
      ensures old(repository.dropped) <= repository.dropped
      ensures RowsOf(rows, w.batch)
      ensures repository.dropped == old(repository.dropped) ==> rows == [] || rows == w.batch
      ensures result.Some? ==>
        Reports(result.value, WriteRows(old(repository.table), w.batch, failing, |w.batch|))
      ensures result.Some? ==>
        && WrittenAs(result.value, w, rows) && Truthful(result.value, w, repository.table)
        && result.value.inserted == |repository.table| - old(|repository.table|)
        && result.value.failed == repository.dropped - old(repository.dropped)
    {
      rows, failing := [], {};
      if |w.contexts| != |w.batch| {
        return None, rows, failing;
      }
      ghost var before := repository.table;
      var reply;
      ghost var took;
      reply, failing, took := repository.InsertMany(w.batch);
      if took {
        rows := Accepted(w.batch, failing, |w.batch|);
        WriteLaws(before, w.batch, failing);
        WriteAbsorbs(before, w.batch, failing, |w.batch|);
        InsertExtends(before, rows);
      }
      if reply.Raised? {
        return None, rows, failing;
      }
      ghost var outcome := WriteRows(before, w.batch, failing, |w.batch|);
      SameMembers(reply.duplicates, outcome.duplicates);
      if reply.inserted + |reply.duplicates| + reply.failed != |w.batch| {
        return None, rows, failing;
      }
      DuplicatesDescribeRows(before, w.batch, failing, |w.batch|);
      var details := Attach(reply.duplicates, w);
      result := Some(BatchResult(reply.inserted, |reply.duplicates|, reply.failed, details));
      ReportsAreTruthful(result.value, w, before, failing);
    }

    static function Attach(duplicates: seq<Duplicate>, w: Write): (details: seq<DuplicateDetail>)
      requires forall d :: d in duplicates ==>
        && d.incomingIndex < |w.batch| == |w.contexts| && d.key == w.batch[d.incomingIndex].key
        && d.incoming == w.batch[d.incomingIndex].payload
      ensures |details| == |duplicates|
      ensures Evidence(details) == duplicates
      ensures forall d :: d in details ==> Describes(d, w)
    {
      seq(|duplicates|, i requires 0 <= i < |duplicates| =>
        var d := duplicates[i];
        assert d in duplicates;
        DuplicateDetail(d, if d.IsConflicting() then Some(w.contexts[d.incomingIndex]) else None))
    }

    /** Nobody waits for the writes in `todo` any more, but they go on: any of them may commit, in
        any order. */
    method LeaveBehind(ws: seq<Write>, todo: set<nat>) returns (ghost rows: seq<Row>)
      requires repository.Valid() && forall i :: i in todo ==> i < |ws|
      modifies repository
      ensures repository.Valid() && repository.committed == old(repository.committed) + rows
      ensures old(|repository.table|) <= |repository.table|
      ensures old(repository.dropped) <= repository.dropped
      ensures RowsOf(rows, SubmittedRows(ws))
      ensures todo == {} ==> rows == []
    {
      rows := [];
      var left := todo;
      while left != {}
        invariant repository.Valid() && left <= todo && RowsOf(rows, SubmittedRows(ws))
        invariant repository.committed == old(repository.committed) + rows
        invariant old(|repository.table|) <= |repository.table|
        invariant old(repository.dropped) <= repository.dropped
        invariant todo == {} ==> rows == []
        decreases left
      {
        if * {
          break;
        }
        var i :| i in left;
        var ignored, part, failing := WriteBatch(ws[i]);
        Reassociate(old(repository.committed), rows, part);
        PartIsSubmitted(ws, i, part);
        left, rows := left - {i}, rows + part;
      }
    }

    /** A write raised after the table took over `rows`: nobody waits for the writes in `todo`. */
    method BreakOff(ws: seq<Write>, todo: set<nat>, ghost committed: seq<Row>, ghost rows: seq<Row>)
      returns (ghost all: seq<Row>)
      requires repository.Valid() && forall i :: i in todo ==> i < |ws|
      requires repository.committed == committed + rows && RowsOf(rows, SubmittedRows(ws))
      modifies repository
      ensures repository.Valid() && repository.committed == committed + all
      ensures old(|repository.table|) <= |repository.table|
      ensures old(repository.dropped) <= repository.dropped
      ensures RowsOf(all, SubmittedRows(ws))
    {
      ghost var more := LeaveBehind(ws, todo);
      Reassociate(committed, rows, more);
      all := rows + more;
    }

    /** Nobody waits for the pending writes any more. */
    method LeavePending() returns (ghost rows: seq<Row>)
      requires repository.Valid()
      modifies this`pending, repository
      ensures pending == []
      ensures repository.Valid() && repository.committed == old(repository.committed) + rows
      ensures old(|repository.table|) <= |repository.table|
      ensures old(repository.dropped) <= repository.dropped
      ensures RowsOf(rows, SubmittedRows(old(pending)))
      ensures old(pending) == [] ==> rows == []
    {
      var ws := pending;
      pending := [];
      var todo := Indexes(|ws|);
      assert ws == [] ==> todo == {};
      rows := LeaveBehind(ws, todo);
    }

    /** Let the writes commit, in any order; if one raises, nobody waits for the rest. */
    method Gather(ws: seq<Write>) returns (results: Option<seq<BatchResult>>, ghost rows: seq<Row>)
      requires repository.Valid()
      modifies repository
      ensures repository.Valid() && repository.committed == old(repository.committed) + rows
      ensures old(|repository.table|) <= |repository.table|
      ensures old(repository.dropped) <= repository.dropped
      ensures RowsOf(rows, SubmittedRows(ws))
      ensures results.Some? ==>
        Books(ws, results.value, rows, |repository.table| - old(|repository.table|),
              repository.dropped - old(repository.dropped), false)
      ensures results.Some? ==> Honest(results.value, ws, repository.table)
    {
      var todo, done := Indexes(|ws|), Nothings(|ws|);
      ghost var parts := Empties(|ws|);
      rows := [];
      while todo != {}
        invariant repository.Valid() && repository.committed == old(repository.committed) + rows
        invariant Gathering(ws, todo, done, parts, rows, repository.table,
                            |repository.table| - old(|repository.table|),
                            repository.dropped - old(repository.dropped))
        decreases todo
      {
        var i :| i in todo;
        ghost var before, refused := repository.table, repository.dropped;
        var result, part, failing := WriteBatch(ws[i]);
        Reassociate(old(repository.committed), rows, part);
        if result.None? {
          ProgressAborts(ws, todo, done, parts, rows, i, part);
          rows := BreakOff(ws, todo - {i}, old(repository.committed), rows + part);
          return None, rows;
        }
        GatheringStep(ws, todo, done, parts, rows, before, |before| - old(|repository.table|),
                      refused - old(repository.dropped), i, result.value, part, repository.table,
                      |repository.table| - old(|repository.table|),
                      repository.dropped - old(repository.dropped));
        done, parts, rows := done[i := result.value], parts[i := part], rows + part;
        todo := todo - {i};
      }
      Gathered(ws, done, parts, rows, repository.table,
               |repository.table| - old(|repository.table|),
               repository.dropped - old(repository.dropped));
      return Some(done), rows;
    }

    /** Wait for every pending write. */
    method Drain() returns (results: Option<seq<BatchResult>>, ghost rows: seq<Row>)
      requires repository.Valid()
      modifies this`pending, repository
      ensures pending == []
      ensures repository.Valid() && repository.committed == old(repository.committed) + rows
      ensures old(|repository.table|) <= |repository.table|
      ensures old(repository.dropped) <= repository.dropped
      ensures RowsOf(rows, SubmittedRows(old(pending)))
      ensures old(pending) == [] ==> rows == []
      ensures results.Some? ==>
        Books(old(pending), results.value, rows, |repository.table| - old(|repository.table|),
              repository.dropped - old(repository.dropped), old(pending) == [])
      ensures results.Some? ==> Honest(results.value, old(pending), repository.table)
    {
      rows := [];
      if pending == [] {
        return Some([]), rows;
      }
      var ws := pending;
      pending := [];
      results, rows := Gather(ws);
    }

    /** One worker writes at once. */
    method WriteAlone(w: Write) returns (results: Option<seq<BatchResult>>, ghost rows: seq<Row>)
      requires repository.Valid()
      modifies repository
      ensures repository.Valid() && repository.committed == old(repository.committed) + rows
      ensures old(|repository.table|) <= |repository.table|
      ensures old(repository.dropped) <= repository.dropped
      ensures RowsOf(rows, w.batch)
      ensures repository.dropped == old(repository.dropped) ==> rows == [] || rows == w.batch
      ensures results.Some? ==>
        Books([w], results.value, rows, |repository.table| - old(|repository.table|),
              repository.dropped - old(repository.dropped), true)
      ensures results.Some? ==> Honest(results.value, [w], repository.table)
    {
      var result;
      ghost var failing;
      result, rows, failing := WriteBatch(w);
      if result.None? {
        return None, rows;
      }
      SettledAlone(result.value, w, rows);
      results := Some([result.value]);
    }

    /** Submit a batch, and drain when the worker limit is reached. */
    method Submit(batch: seq<Row>, contexts: seq<RowContext>)
      returns (results: Option<seq<BatchResult>>, ghost rows: seq<Row>)
      requires Valid() && (workers == 1 ==> pending == [])
      modifies this`pending, repository
      ensures Valid() && repository.committed == old(repository.committed) + rows
      ensures old(|repository.table|) <= |repository.table|
      ensures old(repository.dropped) <= repository.dropped
      ensures RowsOf(rows, SubmittedRows(old(pending)) + batch)
      ensures workers == 1 ==> pending == []
      ensures workers == 1 && repository.dropped == old(repository.dropped) ==>
        rows == [] || rows == batch
      ensures results.Some? && batch != [] ==>
        var ws := old(pending) + [Write(batch, contexts)];
        if pending == [] then
          Books(ws, results.value, rows, |repository.table| - old(|repository.table|),
                repository.dropped - old(repository.dropped), workers == 1)
        else pending == ws && results.value == [] && rows == []
             && repository.table == old(repository.table)
             && repository.dropped == old(repository.dropped)
      ensures results.Some? && batch != [] && pending == [] ==>
        Honest(results.value, old(pending) + [Write(batch, contexts)], repository.table)
      ensures results.None? ==> pending == []
    {
      rows := [];
      if batch == [] {
        return Some([]), rows;
      }
      var w := Write(batch, contexts);
      if workers == 1 {
        results, rows := WriteAlone(w);
        assert old(pending) + [w] == [w];
        return;
      }
      pending := pending + [w];
      SubmittedSnoc(old(pending), w);
      if |pending| < workers {
        return Some([]), rows;
      }
      results, rows := Drain();
    }
  }

  lemma {:induction false} SettledAlone(r: BatchResult, w: Write, rows: seq<Row>)
    requires WrittenAs(r, w, rows)
    ensures Total([r]) == Totals(r.inserted, r.duplicates, r.failed)
    ensures SubmittedRows([w]) == w.batch
    ensures Absorbed(rows, SubmittedRows([w]), Total([r]).failed)
  {
    FlattenOne(w.batch);
    assert Batches([w]) == [w.batch];
    TotalOne(r);
  }

  lemma {:induction false} TotalOne(r: BatchResult)
    ensures Total([r]) == Totals(r.inserted, r.duplicates, r.failed)
  {
    assert [r][..0] == [];
  }
}
