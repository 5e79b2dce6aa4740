/** What a whole run of the row loop guarantees, whatever the worker count, the commit order
    and the point at which it breaks off. */
module RowBatchGuarantees {
  import opened TransactionTable
  import opened Quality
  import opened Contracts
  import opened Accounting
  import opened RunState
  import opened BatchWriter
  import opened RowBatches

  // ---------------------------------------------------------------------------
  // Conservation
  // ---------------------------------------------------------------------------

  lemma {:induction false} SettledAccounts(rs: seq<BatchResult>, ws: seq<Write>)
    requires |rs| == |ws| && forall i :: 0 <= i < |rs| ==> rs[i].Attempted() == |ws[i].batch|
    ensures var t := Total(rs);
      t.inserted + t.duplicates + t.failed == |SubmittedRows(ws)|
  {
    if rs != [] {
      var n := |rs| - 1;
      SettledAccounts(rs[..n], ws[..n]);
      assert ws == ws[..n] + [ws[n]];
      SubmittedSnoc(ws[..n], ws[n]);
    }
  }

  lemma {:induction false} BooksAccount(done: seq<Write>, settled: seq<BatchResult>,
                                        absorbed: seq<Row>, growth: int, dropped: int,
                                        inOrder: bool)
    requires Books(done, settled, absorbed, growth, dropped, inOrder)
    ensures var t := Total(settled);
      t.inserted + t.duplicates + t.failed == |SubmittedRows(done)|
  {
    forall i | 0 <= i < |settled|
      ensures settled[i].Attempted() == |done[i].batch|
    {
      assert ResultFor(settled[i], done[i]);
    }
    SettledAccounts(settled, done);
  }

  /** Anywhere in the loop, every row read is rejected, recorded, in a pending write or in the
      buffer. */
  lemma {:induction false} RowsAreConserved(c: RowBatchCoordinator, e: Expected, batch: seq<Row>,
                                            contexts: seq<RowContext>, rejects: seq<Record>)
    requires c.Looping(e, batch, contexts, rejects)
    requires c.read == |e.rows| + |e.rejects| && c.rejected == |e.rejects|
    ensures var was, now := c.start.rows, c.state.rows;
      now.total - was.total
        == now.rejected - was.rejected
           + (now.success - was.success) + (now.duplicate - was.duplicate)
           + (now.persistenceFailed - was.persistenceFailed)
           + |SubmittedRows(c.writer.pending)| + |batch|
  {
    BooksAccount(c.done, c.settled, c.absorbed, |c.writer.repository.table| - |c.start.table|,
                 c.writer.repository.dropped - c.start.dropped, c.writer.workers == 1);
    SubmittedConcat(c.done, c.writer.pending);
  }

  /** A run that returns has counted every row of the source as exactly one of inserted,
      duplicate, rejected or failed in persistence. */
  lemma {:induction false} FinishedRunCountsEveryRow(c: RowBatchCoordinator, source: seq<SourceRow>)
    requires var e := Expect(source, c.First());
      c.Closed(e) && c.rejected == |e.rejects| && c.read == |source| && Processable(source)
    ensures var was, now := c.start.rows, c.state.rows;
      && now.total - was.total == |source|
      && now.total - was.total
         == (now.success - was.success) + (now.duplicate - was.duplicate)
            + (now.rejected - was.rejected) + (now.persistenceFailed - was.persistenceFailed)
  {
    RowsSplit(source, c.First());
    BooksAccount(c.done, c.settled, c.absorbed, |c.writer.repository.table| - |c.start.table|,
                 c.writer.repository.dropped - c.start.dropped, c.writer.workers == 1);
  }

  /** However a run breaks off, it reports no more inserted rows than the table gained. */
  lemma {:induction false} BrokenRunClaimsNoMore(c: RowBatchCoordinator, rows: seq<Row>)
    requires c.Broken(rows)
    ensures c.state.rows.success - c.start.rows.success
      <= |c.writer.repository.table| - |c.start.table|
  {
    TotalPrefix(c.counted, c.settled);
  }

  function RowKeys(rows: seq<Row>): (keys: seq<string>) {
    seq(|rows|, i requires 0 <= i < |rows| => rows[i].key.ingestionKey)
  }

  lemma {:induction false} KeysAreRowKeys(source: seq<SourceRow>, first: int)
    ensures KeysOf(OutcomesOf(source)) == RowKeys(Expect(source, first).rows)
  {
    if source != [] {
      var n := |source| - 1;
      var before := OutcomesOf(source[..n]);
      KeysAreRowKeys(source[..n], first);
      NothingAppended(before);
      if source[n].result.Some? {
        KeysSnoc([], before, source[n].result.value);
      }
    }
  }

  /** A run that returns has counted the outcomes of its rows and the results of its writes: its
      quality and error counters are what recording them in any order gives, the decision and the
      action are those recounted from the outcomes, and the ingestion keys are those of the valid
      rows in source order. */
  lemma {:induction false} FinishedRunCountsAnyOrder(c: RowBatchCoordinator, source: seq<SourceRow>,
                                                     events: seq<Event>)
    requires c.Closed(Expect(source, c.First())) && c.seen == OutcomesOf(source)
    requires Interleaves(events, OutcomesOf(source), c.settled)
    ensures var after := RecordedFrom(Counters(ZERO.rows, c.start.quality, c.start.errors), events);
      c.state.quality == after.quality && c.state.errorCounts == after.errors
    ensures Disposition(c.state.decision, c.state.action) == FromOutcomes(c.state.quality.outcomes)
    ensures c.state.ingestionKeys == c.start.keys + RowKeys(Expect(source, c.First()).rows)
  {
    KeysAreRowKeys(source, c.First());
  }

  // ---------------------------------------------------------------------------
  // The table
  // ---------------------------------------------------------------------------

  lemma {:induction false} AnyOrder(t: Table, absorbed: seq<Row>, rows: seq<Row>)
    requires multiset(absorbed) == multiset(rows)
    ensures Insert(t, absorbed).Keys == Insert(t, rows).Keys
    ensures |Insert(t, absorbed)| - |t| == |Keys(rows) - t.Keys|
    ensures AgreeingNew(t, rows) ==> Insert(t, absorbed) == Insert(t, rows)
  {
    CommitOrderKeepsKeys(t, absorbed, rows);
    InsertIsFirstWins(t, rows);
    GrowthOf(t, Insert(t, absorbed), Keys(rows));
    if AgreeingNew(t, rows) {
      AgreeingRowsCommute(t, rows, absorbed);
    }
  }

  /** With no row dropped, a finished run leaves what its valid rows and the table it started
      from determine: neither the worker count nor the commit order shows. Only which payload
      a key keeps can depend on them, and not if the rows agree on the keys
      that are new to the table. */
  lemma {:induction false} WorkersDoNotMatter(c: RowBatchCoordinator, e: Expected)
    requires c.Closed(e) && c.writer.repository.dropped == c.start.dropped
    ensures var was, now, t := c.start.rows, c.state.rows, c.start.table;
      && c.writer.repository.table.Keys == Insert(t, e.rows).Keys
      && now.success - was.success == |Keys(e.rows) - t.Keys|
      && now.duplicate - was.duplicate == |e.rows| - |Keys(e.rows) - t.Keys|
      && now.persistenceFailed == was.persistenceFailed
    ensures c.writer.workers == 1 || AgreeingNew(c.start.table, e.rows) ==>
      c.writer.repository.table == Insert(c.start.table, e.rows)
  {
    var repository, t := c.writer.repository, c.start.table;
    InsertConcat(repository.initial, c.start.committed, c.absorbed);
    AnyOrder(t, c.absorbed, e.rows);
    BooksAccount(c.done, c.settled, c.absorbed, |repository.table| - |t|,
                 repository.dropped - c.start.dropped, c.writer.workers == 1);
  }

  /** A run that breaks off leaves behind some of its valid rows; a single writer leaves a
      prefix of them. */
  lemma {:induction false} BrokenRunLeavesRows(c: RowBatchCoordinator, rows: seq<Row>)
    requires c.Broken(rows)
    ensures c.writer.repository.Valid() && c.writer.repository.dropped >= c.start.dropped
    ensures c.writer.repository.table == Insert(c.start.table, c.absorbed)
    ensures RowsOf(c.absorbed, rows)
    ensures c.writer.workers == 1 && c.writer.repository.dropped == c.start.dropped ==>
      c.absorbed <= rows
  {
    InsertConcat(c.writer.repository.initial, c.start.committed, c.absorbed);
  }

  // ---------------------------------------------------------------------------
  // Quarantined conflicts
  // ---------------------------------------------------------------------------

  ghost predicate Aligned(ws: seq<Write>) {
    forall k :: 0 <= k < |ws| ==> |ws[k].batch| == |ws[k].contexts|
  }

  lemma {:induction false} AlignedLengths(ws: seq<Write>)
    requires Aligned(ws)
    ensures |SubmittedRows(ws)| == |SubmittedContexts(ws)|
  {
    if ws != [] {
      var n := |ws| - 1;
      AlignedLengths(ws[..n]);
      assert ws == ws[..n] + [ws[n]];
      SubmittedSnoc(ws[..n], ws[n]);
      ContextsSnoc(ws[..n], ws[n]);
    }
  }

  /** A batch and its contexts sit at the same place among everything submitted. */
  lemma {:induction false} SameOffset(ws: seq<Write>, k: nat, i: nat) returns (m: nat)
    requires Aligned(ws) && k < |ws| && i < |ws[k].batch|
    ensures m < |SubmittedRows(ws)| && m < |SubmittedContexts(ws)|
    ensures SubmittedRows(ws)[m] == ws[k].batch[i]
    ensures SubmittedContexts(ws)[m] == ws[k].contexts[i]
  {
    var n := |ws| - 1;
    AlignedLengths(ws[..n]);
    assert ws == ws[..n] + [ws[n]];
    SubmittedSnoc(ws[..n], ws[n]);
    ContextsSnoc(ws[..n], ws[n]);
    if k < n {
      m := SameOffset(ws[..n], k, i);
    } else {
      m := |SubmittedRows(ws[..n])| + i;
    }
  }

  /** The batch record of a conflicting duplicate. */
  function RecordFor(d: DuplicateDetail): (record: Record)
    requires d.context.Some?
  {
    Conflict(d.context.value.rowNumber, Sanitize(d.context.value.raw), d.duplicate.key,
             d.duplicate.incoming, d.duplicate.existing)
  }

  lemma {:induction false} DetailOf(details: seq<DuplicateDetail>, record: Record)
    returns (d: DuplicateDetail)
    requires record in ConflictRecords(details)
    ensures d in details && d.duplicate.IsConflicting() && d.context.Some?
    ensures record == RecordFor(d)
  {
    var n := |details| - 1;
    if record in ConflictRecords(details[..n]) {
      d := DetailOf(details[..n], record);
    } else {
      d := details[n];
    }
  }

  lemma {:induction false} ResultOf(rs: seq<BatchResult>, record: Record) returns (k: nat)
    requires record in AllConflictRecords(rs)
    ensures k < |rs| && record in ConflictRecords(rs[k].details)
  {
    var n := |rs| - 1;
    if record in ConflictRecords(rs[n].details) {
      k := n;
    } else {
      k := ResultOf(rs[..n], record);
    }
  }

  /** `record` tells of row number `record.rowNumber` of the source: its own raw row, its key,
      its payload, and the different payload the table `t` holds. */
  ghost predicate NamesItsRow(record: Record, source: seq<SourceRow>, first: int, t: Table) {
    && record.Conflict? && 0 <= record.rowNumber - first < |source|
    && var s := source[record.rowNumber - first];
    && record.raw == Sanitize(s.raw) && s.result.Some? && IsValid(s.result.value.outcome)
    && s.result.value.row == Row(record.key, record.incoming)
    && record.key in t && t[record.key] == record.existing != record.incoming
  }

  lemma {:induction false} ConflictNamesItsRow(ws: seq<Write>, k: nat, d: DuplicateDetail,
                                               source: seq<SourceRow>, first: int, t: Table)
    requires Aligned(ws) && k < |ws| && Describes(d, ws[k]) && d.duplicate.IsConflicting()
    requires Meets(d.duplicate, t)
    requires SubmittedRows(ws) == Expect(source, first).rows
    requires SubmittedContexts(ws) == Expect(source, first).contexts
    ensures d.context.Some? && NamesItsRow(RecordFor(d), source, first, t)
  {
    var m := SameOffset(ws, k, d.duplicate.incomingIndex);
    ContextsAlign(source, first, m);
  }

  /** One batch record per conflicting duplicate. */
  lemma {:induction false} OneRecordPerConflict(details: seq<DuplicateDetail>)
    requires Located(details)
    ensures |ConflictRecords(details)| == Conflicts(details)
  {
    if details != [] {
      var n := |details| - 1;
      assert details[n] in details;
      OneRecordPerConflict(details[..n]);
    }
  }

  lemma {:induction false} OneRecordPerConflictInAll(rs: seq<BatchResult>, ws: seq<Write>)
    requires |rs| == |ws| && forall i :: 0 <= i < |rs| ==> ResultFor(rs[i], ws[i])
    ensures |AllConflictRecords(rs)| == ConflictTotal(rs)
  {
    if rs != [] {
      var n := |rs| - 1;
      assert ResultFor(rs[n], ws[n]);
      forall d | d in rs[n].details && d.duplicate.IsConflicting() ensures d.context.Some? {
        assert Describes(d, ws[n]);
      }
      OneRecordPerConflict(rs[n].details);
      OneRecordPerConflictInAll(rs[..n], ws[..n]);
    }
  }

  lemma {:induction false} RecordOf(rs: seq<BatchResult>, ws: seq<Write>, t: Table, record: Record)
    returns (k: nat, d: DuplicateDetail)
    requires |rs| == |ws| && Honest(rs, ws, t) && record in AllConflictRecords(rs)
    requires forall i :: 0 <= i < |rs| ==> ResultFor(rs[i], ws[i])
    ensures k < |ws| && Describes(d, ws[k]) && d.duplicate.IsConflicting() && Meets(d.duplicate, t)
    ensures d.context.Some? && record == RecordFor(d)
  {
    k := ResultOf(rs, record);
    d := DetailOf(rs[k].details, record);
    assert ResultFor(rs[k], ws[k]) && Describes(d, ws[k]) && Truthful(rs[k], ws[k], t);
    var j :| 0 <= j < |rs[k].details| && rs[k].details[j] == d;
    assert Evidence(rs[k].details)[j] == d.duplicate;
  }

  // No row is sent to quarantine twice.

  predicate Ascending(cs: seq<RowContext>) {
    forall i, j :: 0 <= i < j < |cs| ==> cs[i].rowNumber < cs[j].rowNumber
  }

  ghost predicate DistinctNumbers(records: seq<Record>) {
    forall i, j :: 0 <= i < j < |records| ==> records[i].rowNumber != records[j].rowNumber
  }

  lemma {:induction false} ExpectAscending(source: seq<SourceRow>, first: int)
    ensures var cs := Expect(source, first).contexts;
      Ascending(cs) && forall c :: c in cs ==> c.rowNumber < first + |source|
  {
    if source != [] {
      ExpectAscending(source[..|source| - 1], first);
    }
  }

  lemma {:induction false} DistinctNumbersConcat(a: seq<Record>, b: seq<Record>)
    requires DistinctNumbers(a) && DistinctNumbers(b)
    requires forall x, y :: x in a && y in b ==> x.rowNumber != y.rowNumber
    ensures DistinctNumbers(a + b)
  {
    forall i, j | 0 <= i < j < |a + b| ensures (a + b)[i].rowNumber != (a + b)[j].rowNumber {
      if i < |a| <= j {
        assert a[i] in a && b[j - |a|] in b;
      }
    }
  }

  lemma {:induction false} NumbersOfOne(details: seq<DuplicateDetail>, w: Write)
    requires forall d :: d in details ==> Describes(d, w)
    requires OnePerRow(Evidence(details)) && Ascending(w.contexts)
    ensures DistinctNumbers(ConflictRecords(details))
  {
    if details != [] {
      var n := |details| - 1;
      var init, d := details[..n], details[n];
      assert forall i :: 0 <= i < n ==> Evidence(init)[i] == Evidence(details)[i];
      NumbersOfOne(init, w);
      assert Describes(d, w);
      if d.duplicate.IsConflicting() {
        forall x | x in ConflictRecords(init)
          ensures x.rowNumber != d.context.value.rowNumber
        {
          var e := DetailOf(init, x);
          var j :| 0 <= j < n && init[j] == e;
          assert Describes(e, w);
          assert Evidence(details)[j].incomingIndex != Evidence(details)[n].incomingIndex;
        }
      }
    }
  }

  lemma {:induction false} AscendingParts(a: seq<RowContext>, b: seq<RowContext>)
    requires Ascending(a + b)
    ensures Ascending(a) && Ascending(b)
    ensures forall x, y :: x in a && y in b ==> x.rowNumber < y.rowNumber
  {
    forall i, j | 0 <= i < j < |a| ensures a[i].rowNumber < a[j].rowNumber {
      assert (a + b)[i] == a[i] && (a + b)[j] == a[j];
    }
    forall i, j | 0 <= i < j < |b| ensures b[i].rowNumber < b[j].rowNumber {
      assert (a + b)[|a| + i] == b[i] && (a + b)[|a| + j] == b[j];
    }
    forall x, y | x in a && y in b ensures x.rowNumber < y.rowNumber {
      var i :| 0 <= i < |a| && a[i] == x;
      var j :| 0 <= j < |b| && b[j] == y;
      assert (a + b)[i] == x && (a + b)[|a| + j] == y;
    }
  }

  lemma {:induction false} NumbersOfAll(rs: seq<BatchResult>, ws: seq<Write>, t: Table)
    requires Aligned(ws) && Honest(rs, ws, t)
    requires forall i :: 0 <= i < |rs| ==> ResultFor(rs[i], ws[i])
    requires Ascending(SubmittedContexts(ws))
    ensures DistinctNumbers(AllConflictRecords(rs))
  {
    if rs != [] {
      var n := |rs| - 1;
      assert ws == ws[..n] + [ws[n]];
      ContextsSnoc(ws[..n], ws[n]);
      AscendingParts(SubmittedContexts(ws[..n]), ws[n].contexts);
      HonestPrefix(rs, ws, t, n);
      NumbersOfAll(rs[..n], ws[..n], t);
      assert ResultFor(rs[n], ws[n]) && Truthful(rs[n], ws[n], t);
      NumbersOfOne(rs[n].details, ws[n]);
      forall x, y | x in AllConflictRecords(rs[..n]) && y in ConflictRecords(rs[n].details)
        ensures x.rowNumber != y.rowNumber
      {
        var k, d := RecordOf(rs[..n], ws[..n], t, x);
        var m := SameOffset(ws[..n], k, d.duplicate.incomingIndex);
        var e := DetailOf(rs[n].details, y);
        assert Describes(e, ws[n]);
        assert ws[n].contexts[e.duplicate.incomingIndex] in ws[n].contexts;
        assert SubmittedContexts(ws[..n])[m] in SubmittedContexts(ws[..n]);
      }
      DistinctNumbersConcat(AllConflictRecords(rs[..n]), ConflictRecords(rs[n].details));
    }
  }

  lemma {:induction false} HonestPrefix(rs: seq<BatchResult>, ws: seq<Write>, t: Table, n: nat)
    requires Honest(rs, ws, t) && n <= |rs|
    ensures Honest(rs[..n], ws[..n], t)
  {
    forall i | 0 <= i < n ensures Truthful(rs[..n][i], ws[..n][i], t) {
      assert Truthful(rs[i], ws[i], t);
    }
  }

  // No conflict is lost.

  lemma {:induction false} ExpectedRow(source: seq<SourceRow>, first: int, i: nat) returns (m: nat)
    requires i < |source| && source[i].result.Some? && IsValid(source[i].result.value.outcome)
    ensures var e := Expect(source, first);
      && m < |e.rows| == |e.contexts| && e.rows[m] == source[i].result.value.row
      && e.contexts[m] == RowContext(first + i, source[i].raw)
  {
    var n := |source| - 1;
    EquallyMany(source, first);
    EquallyMany(source[..n], first);
    if i == n {
      m := |Expect(source[..n], first).rows|;
    } else {
      m := ExpectedRow(source[..n], first, i);
    }
  }

  /** What sits at one place among everything submitted sits in one batch. */
  lemma {:induction false} FindOffset(ws: seq<Write>, m: nat) returns (k: nat, i: nat)
    requires Aligned(ws) && m < |SubmittedRows(ws)| == |SubmittedContexts(ws)|
    ensures k < |ws| && i < |ws[k].batch|
    ensures SubmittedRows(ws)[m] == ws[k].batch[i]
    ensures SubmittedContexts(ws)[m] == ws[k].contexts[i]
  {
    var n := |ws| - 1;
    AlignedLengths(ws[..n]);
    assert ws == ws[..n] + [ws[n]];
    SubmittedSnoc(ws[..n], ws[n]);
    ContextsSnoc(ws[..n], ws[n]);
    if m < |SubmittedRows(ws[..n])| {
      k, i := FindOffset(ws[..n], m);
    } else {
      k, i := n, m - |SubmittedRows(ws[..n])|;
    }
  }

  lemma {:induction false} DetailIsRecorded(details: seq<DuplicateDetail>, j: nat)
    requires j < |details| && details[j].duplicate.IsConflicting() && details[j].context.Some?
    ensures RecordFor(details[j]) in ConflictRecords(details)
  {
    if j < |details| - 1 {
      DetailIsRecorded(details[..|details| - 1], j);
    }
  }

  lemma {:induction false} ResultIsRecorded(rs: seq<BatchResult>, k: nat, record: Record)
    requires k < |rs| && record in ConflictRecords(rs[k].details)
    ensures record in AllConflictRecords(rs)
  {
    if k < |rs| - 1 {
      ResultIsRecorded(rs[..|rs| - 1], k, record);
    }
  }

  lemma {:induction false} BatchRecordIsMember(records: seq<Record>, record: Record)
    requires record in BatchRecords(records)
    ensures record in records
  {
    var n := |records| - 1;
    if record in BatchRecords(records[..n]) {
      BatchRecordIsMember(records[..n], record);
    }
  }

  lemma {:induction false} NoneFailedInAny(rs: seq<BatchResult>, k: nat)
    requires k < |rs| && Total(rs).failed == 0
    ensures rs[k].failed == 0
  {
    if k < |rs| - 1 {
      NoneFailedInAny(rs[..|rs| - 1], k);
    }
  }

  ghost predicate HasConflict(records: seq<Record>, number: int) {
    exists record :: record in records && record.Conflict? && record.rowNumber == number
  }

  /** A written row whose payload is not the one the table holds was recorded. */
  lemma {:induction false} ConflictIsRecorded(rs: seq<BatchResult>, ws: seq<Write>, t: Table,
                                              k: nat, i: nat)
    requires Aligned(ws) && Honest(rs, ws, t) && Total(rs).failed == 0
    requires forall n :: 0 <= n < |rs| ==> ResultFor(rs[n], ws[n])
    requires k < |ws| && i < |ws[k].batch|
    requires ws[k].batch[i].key in t ==> t[ws[k].batch[i].key] != ws[k].batch[i].payload
    ensures HasConflict(AllConflictRecords(rs), ws[k].contexts[i].rowNumber)
  {
    NoneFailedInAny(rs, k);
    assert Truthful(rs[k], ws[k], t) && ResultFor(rs[k], ws[k]);
    var ds := Evidence(rs[k].details);
    assert Kept(ws[k].batch[i], i, ds, t);
    var j :| 0 <= j < |ds| && ds[j].incomingIndex == i;
    var d := rs[k].details[j];
    assert Describes(d, ws[k]) && Meets(ds[j], t);
    DetailIsRecorded(rs[k].details, j);
    ResultIsRecorded(rs, k, RecordFor(d));
  }

  lemma {:induction false} HasConflictHanded(handed: seq<Record>, number: int)
    ensures HasConflict(BatchRecords(handed), number) <==> HasConflict(handed, number)
  {
    if HasConflict(BatchRecords(handed), number) {
      var record :| record in BatchRecords(handed) && record.Conflict? && record.rowNumber == number;
      BatchRecordIsMember(handed, record);
    }
    if HasConflict(handed, number) {
      var record :| record in handed && record.Conflict? && record.rowNumber == number;
      MemberIsBatchRecord(handed, record);
    }
  }

  /** A valid row of the source whose payload is not the one the table ended up with. */
  ghost predicate Lost(s: SourceRow, t: Table) {
    && s.result.Some? && IsValid(s.result.value.outcome)
    && (s.result.value.row.key in t ==> t[s.result.value.row.key] != s.result.value.row.payload)
  }

  /** When a run returns, quarantine was handed one validation record per rejected row in source
      order, and the conflicts of all settled results, each naming the very row that conflicted
      with what the table holds, no row twice. */
  lemma {:induction false} QuarantineIsExact(c: RowBatchCoordinator, source: seq<SourceRow>)
    requires var e := Expect(source, c.First());
      c.Closed(e) && c.Quarantined(e) && c.quarantine != null
    ensures var e := Expect(source, c.First());
      && ValidationRecords(c.handed) == e.rejects
      && BatchRecords(c.handed) == AllConflictRecords(c.settled)
      && |c.handed| == |e.rejects| + ConflictTotal(c.settled)
      && c.state.rows.quarantined - c.start.rows.quarantined
         == c.quarantine.stored - c.start.stored
    ensures forall record :: record in c.handed && record.Conflict? ==>
      NamesItsRow(record, source, c.First(), c.writer.repository.table)
    ensures DistinctNumbers(BatchRecords(c.handed))
  {
    var t := c.writer.repository.table;
    KindsCover(c.handed);
    OneRecordPerConflictInAll(c.settled, c.done);
    ExpectAscending(source, c.First());
    NumbersOfAll(c.settled, c.done, t);
    forall record | record in c.handed && record.Conflict?
      ensures NamesItsRow(record, source, c.First(), t)
    {
      MemberIsBatchRecord(c.handed, record);
      var k, d := RecordOf(c.settled, c.done, t, record);
      ConflictNamesItsRow(c.done, k, d, source, c.First(), t);
    }
  }

  /** If nothing was dropped, the rows with a conflict record are exactly the valid rows whose
      payload is not the one the table ended up with, for every worker count and commit order. */
  lemma {:induction false} ConflictsAreLostRows(c: RowBatchCoordinator, source: seq<SourceRow>,
                                                i: nat)
    requires var e := Expect(source, c.First());
      c.Closed(e) && c.Quarantined(e) && c.quarantine != null
    requires c.writer.repository.dropped == c.start.dropped && i < |source|
    ensures HasConflict(c.handed, c.First() + i) <==> Lost(source[i], c.writer.repository.table)
  {
    QuarantineIsExact(c, source);
    if Lost(source[i], c.writer.repository.table) {
      var m := ExpectedRow(source, c.First(), i);
      var k, j := FindOffset(c.done, m);
      ConflictIsRecorded(c.settled, c.done, c.writer.repository.table, k, j);
      HasConflictHanded(c.handed, c.First() + i);
    }
  }

  /** The conflict counter and quarantine agree: beside rows whose own outcome is a conflict, the
      run counted as many conflicts as it handed conflict records over. */
  lemma {:induction false} ConflictCountersAgree(c: RowBatchCoordinator, source: seq<SourceRow>)
    requires var e := Expect(source, c.First());
      c.Closed(e) && c.Quarantined(e) && c.quarantine != null
    requires c.seen == OutcomesOf(source)
    ensures c.state.quality.conflicting - c.start.quality.conflicting
      == RowConflicts(OutcomesOf(source)) + |BatchRecords(c.handed)|
  {
    var rows := OutcomesOf(source);
    var events := RowEvents(rows) + BatchEvents(c.settled);
    assert Interleaves(events, rows, c.settled);
    FinishedRunCountsAnyOrder(c, source, events);
    TallyConflicts(Counters(ZERO.rows, c.start.quality, c.start.errors), rows, c.settled);
    OneRecordPerConflictInAll(c.settled, c.done);
  }

  lemma {:induction false} MemberIsBatchRecord(records: seq<Record>, record: Record)
    requires record in records && record.Conflict?
    ensures record in BatchRecords(records)
  {
    var n := |records| - 1;
    if record != records[n] {
      MemberIsBatchRecord(records[..n], record);
    }
  }

  // ---------------------------------------------------------------------------
  // Replay
  // ---------------------------------------------------------------------------

  /** What a run made of `before`, or what running again would make of it. */
  function Reached(ok: bool, now: Table, rows: seq<Row>): (t: Table) {
    if ok then now else Insert(now, rows)
  }

  /** As far as the keys go the run reached the table of one uninterrupted run; with one writer
      it did altogether. */
  ghost predicate Converges(ok: bool, before: Table, now: Table, rows: seq<Row>, workers: nat) {
    && Reached(ok, now, rows).Keys == Insert(before, rows).Keys
    && (workers == 1 ==> Reached(ok, now, rows) == Insert(before, rows))
  }

  /** Run a source again, each time with a fresh state, until a run returns or the given
      attempts are used up. */
  method IngestWithReplay(repository: PartnerTransactionWriter, quarantine: QuarantineWriter?,
                          source: seq<SourceRow>, startRow: int, batchSize: int, workers: nat,
                          attempts: nat)
    returns (ok: bool)
    requires repository.Valid() && workers >= 1
    modifies repository, quarantine
    ensures repository.Valid()
    ensures repository.dropped == old(repository.dropped) ==>
      var rows := Expect(source, startRow).rows;
      && Converges(ok, old(repository.table), repository.table, rows, workers)
      && (ok ==> |repository.table| - |old(repository.table)|
                 == |Keys(rows) - old(repository.table).Keys|)
  {
    ghost var rows := Expect(source, startRow).rows;
    ok := false;
    for i := 0 to attempts
      invariant repository.Valid() && !ok && repository.dropped >= old(repository.dropped)
      invariant repository.dropped == old(repository.dropped) ==>
        Converges(false, old(repository.table), repository.table, rows, workers)
    {
      ghost var before := repository.table;
      ok := IngestOnce(repository, quarantine, source, startRow, batchSize, workers);
      if repository.dropped == old(repository.dropped) {
        ConvergesAgain(ok, old(repository.table), before, repository.table, rows, workers);
      }
      if ok {
        if repository.dropped == old(repository.dropped) {
          InsertIsFirstWins(old(repository.table), rows);
          GrowthOf(old(repository.table), repository.table, Keys(rows));
        }
        return;
      }
    }
  }

  lemma {:induction false} ConvergesAgain(ok: bool, start: Table, before: Table, now: Table,
                                          rows: seq<Row>, workers: nat)
    requires Converges(false, start, before, rows, workers) && Converges(ok, before, now, rows, workers)
    ensures Converges(ok, start, now, rows, workers)
  {
  }

  method StartState() returns (state: IngestionRunState)
    ensures fresh(state) && state.Valid() && state.rows.total == 0
  {
    state := new IngestionRunState(0);
  }

  /** A fresh run. */
  method StartRun(repository: PartnerTransactionWriter, quarantine: QuarantineWriter?,
                  startRow: int, batchSize: int, workers: nat)
    returns (run: RowBatchCoordinator)
    requires repository.Valid() && workers >= 1
    ensures fresh(run) && fresh(run.state) && fresh(run.writer)
    ensures run.writer.repository == repository && run.quarantine == quarantine
    ensures run.Sound() && run.read == run.rejected == 0
    ensures run.seen == [] && run.done == [] && run.handed == []
    ensures run.writer.pending == [] && run.writer.workers == workers && run.First() == startRow
    ensures run.start.table == repository.table && run.start.dropped == repository.dropped
  {
    var state := StartState();
    var writer := new BatchWriteCoordinator(repository, workers);
    run := new RowBatchCoordinator(startRow, batchSize, state, writer, quarantine);
    assert run.start.rows.total == 0;
  }

  /** One run, however it ends: it reaches the keys of an uninterrupted run, or leaves a table
      from which running again does; with one writer the same goes for the whole table. */
  method IngestOnce(repository: PartnerTransactionWriter, quarantine: QuarantineWriter?,
                    source: seq<SourceRow>, startRow: int, batchSize: int, workers: nat)
    returns (ok: bool)
    requires repository.Valid() && workers >= 1
    modifies repository, quarantine
    ensures repository.Valid() && repository.dropped >= old(repository.dropped)
    ensures repository.dropped == old(repository.dropped) ==>
      Converges(ok, old(repository.table), repository.table, Expect(source, startRow).rows, workers)
  {
    var run := StartRun(repository, quarantine, startRow, batchSize, workers);
    var breaks: bool := *;
    SameSource(source, run.First(), startRow);
    ok := run.Run(source, breaks);
    RunConverges(run, Expect(source, startRow), ok);
  }

  lemma {:induction false} SameSource(source: seq<SourceRow>, a: int, b: int)
    requires a == b
    ensures Expect(source, a) == Expect(source, b)
  {
  }

  lemma {:induction false} RunConverges(c: RowBatchCoordinator, e: Expected, ok: bool)
    requires if ok then c.Closed(e) else c.Broken(e.rows)
    ensures c.writer.repository.Valid() && c.writer.repository.dropped >= c.start.dropped
    ensures c.writer.repository.dropped == c.start.dropped ==>
      Converges(ok, c.start.table, c.writer.repository.table, e.rows, c.writer.workers)
  {
    if !ok {
      BrokenRunConverges(c, e.rows);
    } else if c.writer.repository.dropped == c.start.dropped {
      WorkersDoNotMatter(c, e);
    }
  }

  lemma {:induction false} BrokenRunConverges(c: RowBatchCoordinator, rows: seq<Row>)
    requires c.Broken(rows)
    ensures c.writer.repository.Valid() && c.writer.repository.dropped >= c.start.dropped
    ensures c.writer.repository.dropped == c.start.dropped ==>
      Converges(false, c.start.table, c.writer.repository.table, rows, c.writer.workers)
  {
    BrokenRunLeavesRows(c, rows);
    RowsOfKeys(c.absorbed, rows);
    ReplayKeys(c.start.table, c.absorbed, rows);
    if c.writer.workers == 1 && c.writer.repository.dropped == c.start.dropped {
      PrefixIsAbsorbed(c.start.table, c.absorbed, rows);
    }
  }
}
