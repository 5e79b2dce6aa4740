/** The row loop of one ingestion run: rows become rejects or buffered containers, buffers
    become batches, and rejects and conflicts take a second buffered path to quarantine. */
module RowBatches {
  import opened Sequences
  import opened TransactionTable
  import opened Quality
  import opened Contracts
  import opened Accounting
  import opened RunState
  import opened BatchWriter

  // ---------------------------------------------------------------------------
  // Quarantine
  // ---------------------------------------------------------------------------

  const MAX_CELL_LENGTH := 512

  function Sanitize(raw: RawRow): (kept: RawRow) {
    seq(|raw|, i requires 0 <= i < |raw| =>
      if |raw[i]| > MAX_CELL_LENGTH then raw[i][..MAX_CELL_LENGTH] + "..." else raw[i])
  }

  datatype Record =
    | Rejected(rowNumber: int, raw: RawRow, errors: seq<Violation>)
    | Conflict(rowNumber: int, raw: RawRow, key: Key, incoming: string, existing: string)

  function ValidationRecords(records: seq<Record>): (kept: seq<Record>) {
    if records == [] then []
    else
      var last := records[|records| - 1];
      ValidationRecords(records[..|records| - 1]) + if last.Rejected? then [last] else []
  }

  function BatchRecords(records: seq<Record>): (kept: seq<Record>) {
    if records == [] then []
    else
      var last := records[|records| - 1];
      BatchRecords(records[..|records| - 1]) + if last.Conflict? then [last] else []
  }

  lemma {:induction false} RecordsConcat(a: seq<Record>, b: seq<Record>)
    ensures ValidationRecords(a + b) == ValidationRecords(a) + ValidationRecords(b)
    ensures BatchRecords(a + b) == BatchRecords(a) + BatchRecords(b)
  {
    if b == [] {
      assert a + b == a;
    } else {
      var n := |b| - 1;
      assert (a + b)[..|a + b| - 1] == a + b[..n];
      RecordsConcat(a, b[..n]);
    }
  }

  lemma {:induction false} AllRejected(records: seq<Record>)
    requires forall r :: r in records ==> r.Rejected?
    ensures ValidationRecords(records) == records && BatchRecords(records) == []
  {
    if records != [] {
      AllRejected(records[..|records| - 1]);
    }
  }

  lemma {:induction false} AllConflicts(records: seq<Record>)
    requires forall r :: r in records ==> r.Conflict?
    ensures ValidationRecords(records) == [] && BatchRecords(records) == records
  {
    if records != [] {
      var init, last := records[..|records| - 1], records[|records| - 1];
      AllConflicts(init);
      assert last in records && records == init + [last];
    }
  }

  /** Every record is a rejection or a conflict. */
  lemma {:induction false} KindsCover(records: seq<Record>)
    ensures |records| == |ValidationRecords(records)| + |BatchRecords(records)|
  {
    if records != [] {
      KindsCover(records[..|records| - 1]);
    }
  }

  class QuarantineWriter {
    /** Records handed over, and records the repository said it stored. */
    ghost var sent: seq<Record>
    ghost var stored: nat

    constructor ()
      ensures sent == [] && stored == 0
    {
      sent, stored := [], 0;
    }

    /** Raises, or reports how many records it stored. */
    method CreateMany(records: seq<Record>) returns (count: Option<nat>)
      modifies this
      ensures sent == old(sent) + records
      ensures stored == old(stored) + if count.Some? then count.value else 0
    {
      sent := sent + records;
      if * {
        return None;
      }
      var n: nat :| n >= 0;
      stored := stored + n;
      return Some(n);
    }
  }

  // ---------------------------------------------------------------------------
  // What the rows of a source become
  // ---------------------------------------------------------------------------

  /** A row as the reader yields it, and what the opaque row transformation makes of it:
      `None` when it raises. */
  datatype SourceRow = SourceRow(raw: RawRow, result: Option<RowOutcome>)

  ghost predicate Processable(source: seq<SourceRow>) {
    forall i :: 0 <= i < |source| ==> source[i].result.Some?
  }

  lemma {:induction false} ProcessableNext(source: seq<SourceRow>, i: nat)
    requires i < |source| && Processable(source[..i]) && source[i].result.Some?
    ensures Processable(source[..i + 1])
  {
  }

  /** What the rows read so far became: the containers to persist, where each came from, and
      one validation record per rejected row. */
  datatype Expected = Expected(rows: seq<Row>, contexts: seq<RowContext>, rejects: seq<Record>)

  function Next(e: Expected, s: SourceRow, number: int): (e': Expected) {
    if s.result.None? then e
    else
      var r := s.result.value;
      if IsValid(r.outcome) then
        e.(rows := e.rows + [r.row], contexts := e.contexts + [RowContext(number, s.raw)])
      else e.(rejects := e.rejects + [Rejected(number, Sanitize(s.raw), r.violations)])
  }

  function Expect(source: seq<SourceRow>, first: int): (e: Expected) {
    if source == [] then Expected([], [], [])
    else
      var n := |source| - 1;
      Next(Expect(source[..n], first), source[n], first + n)
  }

  lemma {:induction false} ExpectNext(source: seq<SourceRow>, i: nat, first: int, number: int)
    requires i < |source| && number == first + i
    ensures Expect(source[..i + 1], first) == Next(Expect(source[..i], first), source[i], number)
  {
    TakeOneMore(source, i + 1);
  }

  lemma {:induction false} NextGrows(e: Expected, s: SourceRow, number: int)
    ensures e.rows <= Next(e, s, number).rows
    ensures |Next(e, s, number).rejects|
      == |e.rejects| + if s.result.Some? && !IsValid(s.result.value.outcome) then 1 else 0
  {
  }

  /** What a prefix of the source became comes first. */
  lemma {:induction false} ExpectGrows(source: seq<SourceRow>, i: nat, first: int)
    requires i <= |source|
    ensures Expect(source[..i], first).rows <= Expect(source, first).rows
    decreases |source| - i
  {
    if i == |source| {
      assert source[..i] == source;
    } else {
      ExpectGrows(source, i + 1, first);
      ExpectNext(source, i, first, first + i);
      NextGrows(Expect(source[..i], first), source[i], first + i);
    }
  }

  lemma {:induction false} RowsSplit(source: seq<SourceRow>, first: int)
    requires Processable(source)
    ensures var e := Expect(source, first);
      |source| == |e.rows| + |e.rejects| && |e.rows| == |e.contexts|
  {
    if source != [] {
      RowsSplit(source[..|source| - 1], first);
    }
  }

  /** The outcome of a row, unless its transformation raises. */
  function OutcomeOf(s: SourceRow): (r: seq<RowOutcome>) {
    if s.result.Some? then [s.result.value] else []
  }

  function OutcomesOf(source: seq<SourceRow>): (rs: seq<RowOutcome>) {
    if source == [] then []
    else OutcomesOf(source[..|source| - 1]) + OutcomeOf(source[|source| - 1])
  }

  lemma {:induction false} OutcomesNext(source: seq<SourceRow>, i: nat)
    requires i < |source|
    ensures OutcomesOf(source[..i + 1]) == OutcomesOf(source[..i]) + OutcomeOf(source[i])
  {
    TakeOneMore(source, i + 1);
  }

  lemma {:induction false} OutcomesGrow(source: seq<SourceRow>, i: nat)
    requires i <= |source|
    ensures OutcomesOf(source[..i]) <= OutcomesOf(source)
    decreases |source| - i
  {
    if i == |source| {
      assert source[..i] == source;
    } else {
      OutcomesGrow(source, i + 1);
      OutcomesNext(source, i);
    }
  }

  /** The ingestion keys of the valid ones. */
  function KeysOf(rs: seq<RowOutcome>): (keys: seq<string>) {
    if rs == [] then [] else KeysOf(rs[..|rs| - 1]) + KeyOf(rs[|rs| - 1])
  }

  function KeyOf(r: RowOutcome): (key: seq<string>) {
    if IsValid(r.outcome) then [r.row.key.ingestionKey] else []
  }

  lemma {:induction false} KeysSnoc(keys: seq<string>, rs: seq<RowOutcome>, r: RowOutcome)
    ensures keys + KeysOf(rs + [r]) == (keys + KeysOf(rs)) + KeyOf(r)
  {
    assert (rs + [r])[..|rs|] == rs;
    Reassociate(keys, KeysOf(rs), KeyOf(r));
  }

  /** `row` is what row number `context.rowNumber` of the source was transformed into. */
  ghost predicate ComesFrom(row: Row, context: RowContext, source: seq<SourceRow>, first: int) {
    && 0 <= context.rowNumber - first < |source|
    && var s := source[context.rowNumber - first];
    && s.raw == context.raw && s.result.Some?
    && IsValid(s.result.value.outcome) && s.result.value.row == row
  }

  /** The k-th container and the k-th context belong to the same row of the source. */
  lemma {:induction false} ContextsAlign(source: seq<SourceRow>, first: int, k: nat)
    requires k < |Expect(source, first).rows|
    ensures var e := Expect(source, first);
      k < |e.contexts| && ComesFrom(e.rows[k], e.contexts[k], source, first)
  {
    var n := |source| - 1;
    EquallyMany(source[..n], first);
    if k < |Expect(source[..n], first).rows| {
      ContextsAlign(source[..n], first, k);
    }
  }

  lemma {:induction false} EquallyMany(source: seq<SourceRow>, first: int)
    ensures |Expect(source, first).rows| == |Expect(source, first).contexts|
  {
    if source != [] {
      EquallyMany(source[..|source| - 1], first);
    }
  }

  // ---------------------------------------------------------------------------
  // Settled writes
  // ---------------------------------------------------------------------------

  function ContextLists(ws: seq<Write>): (lists: seq<seq<RowContext>>)
    ensures |lists| == |ws|
    ensures forall i :: 0 <= i < |ws| ==> lists[i] == ws[i].contexts
  {
    seq(|ws|, i requires 0 <= i < |ws| => ws[i].contexts)
  }

  function SubmittedContexts(ws: seq<Write>): (cs: seq<RowContext>) { Flatten(ContextLists(ws)) }

  /** One batch record per conflicting duplicate, with the origin of the row that conflicted. */
  function ConflictRecords(details: seq<DuplicateDetail>): (records: seq<Record>)
    ensures forall r :: r in records ==> r.Conflict?
  {
    if details == [] then []
    else
      var d := details[|details| - 1];
      ConflictRecords(details[..|details| - 1])
      + if d.duplicate.IsConflicting() && d.context.Some? then
          [Conflict(d.context.value.rowNumber, Sanitize(d.context.value.raw), d.duplicate.key,
                    d.duplicate.incoming, d.duplicate.existing)]
        else []
  }

  /** The batch records of all recorded results, in order. */
  function AllConflictRecords(rs: seq<BatchResult>): (records: seq<Record>) {
    if rs == [] then []
    else AllConflictRecords(rs[..|rs| - 1]) + ConflictRecords(rs[|rs| - 1].details)
  }

  lemma {:induction false} AllConflictsSnoc(rs: seq<BatchResult>, r: BatchResult)
    ensures AllConflictRecords(rs + [r]) == AllConflictRecords(rs) + ConflictRecords(r.details)
  {
    assert (rs + [r])[..|rs|] == rs;
  }

  /** The writer attached a context to every conflict. */
  ghost predicate Located(details: seq<DuplicateDetail>) {
    forall d :: d in details && d.duplicate.IsConflicting() ==> d.context.Some?
  }

  lemma {:induction false} ResultsLocated(rs: seq<BatchResult>, ws: seq<Write>, growth: int,
                                          dropped: int, earlier: seq<BatchResult>,
                                          latest: seq<BatchResult>)
    requires Settled(rs, ws, growth, dropped) && rs == earlier + latest
    ensures forall r :: r in latest ==> Located(r.details)
  {
    forall i | 0 <= i < |latest| ensures Located(latest[i].details) {
      assert rs[|earlier| + i] == latest[i];
      assert ResultFor(rs[|earlier| + i], ws[|earlier| + i]);
      forall d | d in latest[i].details && d.duplicate.IsConflicting() ensures d.context.Some? {
        assert Describes(d, ws[|earlier| + i]);
      }
    }
  }

  lemma {:induction false} TotalPrefix(some: seq<BatchResult>, all: seq<BatchResult>)
    requires some <= all
    ensures Total(some).inserted <= Total(all).inserted
  {
    assert all == some + all[|some|..];
    TotalConcat(some, all[|some|..]);
  }

  /** Row counters after some rows were read and rejected, and some results recorded. */
  function Counts(start: RowCounts, read: nat, rejected: nat, t: Totals, stored: nat): (c: RowCounts) {
    RowCounts(start.total + read, start.success + t.inserted, start.failed + rejected + t.failed,
              start.duplicate + t.duplicates, start.rejected + rejected,
              start.persistenceFailed + t.failed, start.quarantined + stored)
  }

  lemma {:induction false} NothingAppended<T>(xs: seq<T>)
    ensures xs + [] == xs
  {
  }

  lemma {:induction false} PrefixOfSum<T>(xs: seq<T>, ys: seq<T>, n: nat)
    requires n <= |ys|
    ensures xs + ys[..n] <= xs + ys
  {
  }

  lemma {:induction false} ConflictsAreBatchRecords(before: seq<Record>,
                                                    details: seq<DuplicateDetail>)
    ensures BatchRecords(before + ConflictRecords(details)) == BatchRecords(before) + ConflictRecords(details)
    ensures ValidationRecords(before + ConflictRecords(details)) == ValidationRecords(before)
  {
    RecordsConcat(before, ConflictRecords(details));
    AllConflicts(ConflictRecords(details));
  }

  lemma {:induction false} CountsStep(start: RowCounts, read: nat, rejected: nat,
                                      rs: seq<BatchResult>, r: BatchResult, stored: nat)
    ensures Counts(start, read, rejected, Total(rs + [r]), stored)
      == RecordBatchRows(Counts(start, read, rejected, Total(rs), stored), r)
  {
    assert (rs + [r])[..|rs|] == rs;
  }

  lemma {:induction false} RejectCounts(start: RowCounts, read: nat, rejected: nat, t: Totals,
                                        stored: nat, r: RowOutcome)
    ensures RecordRowCounts(Counts(start, read, rejected, t, stored), r)
      == Counts(start, read, rejected + if IsValid(r.outcome) then 0 else 1, t, stored)
  {
  }

  lemma {:induction false} ContextsSnoc(ws: seq<Write>, w: Write)
    ensures SubmittedContexts(ws + [w]) == SubmittedContexts(ws) + w.contexts
  {
    assert ContextLists(ws + [w]) == ContextLists(ws) + [w.contexts];
    FlattenSnoc(ContextLists(ws), w.contexts);
  }

  // ---------------------------------------------------------------------------
  // The two buffers
  // ---------------------------------------------------------------------------

  /** Submitted batches followed by the buffer are the valid rows seen so far, in source order,
      each with its own context; every submitted batch has exactly `limit` rows. */
  ghost predicate Partition(e: Expected, ws: seq<Write>, batch: seq<Row>, contexts: seq<RowContext>,
                            limit: nat)
  {
    && SubmittedRows(ws) + batch == e.rows
    && SubmittedContexts(ws) + contexts == e.contexts
    && |batch| == |contexts| <= limit
    && forall w :: w in ws ==> |w.batch| == |w.contexts| == limit
  }

  /** No batch is empty, and all but the last have exactly `limit` rows. */
  ghost predicate Batched(ws: seq<Write>, limit: nat) {
    && (forall k :: 0 <= k < |ws| ==> 0 < |ws[k].batch| == |ws[k].contexts| <= limit)
    && (forall k :: 0 <= k < |ws| - 1 ==> |ws[k].batch| == limit)
  }

  /** Flushing what is left completes the partition. */
  lemma {:induction false} LastBuffer(e: Expected, ws: seq<Write>, batch: seq<Row>,
                                      contexts: seq<RowContext>, limit: nat)
    requires Partition(e, ws, batch, contexts, limit) && limit > 0
    ensures var all := if batch == [] then ws else ws + [Write(batch, contexts)];
      SubmittedRows(all) == e.rows && SubmittedContexts(all) == e.contexts && Batched(all, limit)
  {
    if batch == [] {
      NothingAppended(SubmittedRows(ws));
      NothingAppended(SubmittedContexts(ws));
    } else {
      SubmittedSnoc(ws, Write(batch, contexts));
      ContextsSnoc(ws, Write(batch, contexts));
    }
  }

  lemma {:induction false} BufferOne(e: Expected, ws: seq<Write>, batch: seq<Row>,
                                     contexts: seq<RowContext>, limit: nat, s: SourceRow,
                                     number: int)
    requires Partition(e, ws, batch, contexts, limit) && |batch| < limit
    requires s.result.Some? && IsValid(s.result.value.outcome)
    ensures Partition(Next(e, s, number), ws, batch + [s.result.value.row],
                      contexts + [RowContext(number, s.raw)], limit)
  {
    Reassociate(SubmittedRows(ws), batch, [s.result.value.row]);
    Reassociate(SubmittedContexts(ws), contexts, [RowContext(number, s.raw)]);
  }

  lemma {:induction false} SubmitBuffer(e: Expected, ws: seq<Write>, batch: seq<Row>,
                                        contexts: seq<RowContext>, limit: nat)
    requires Partition(e, ws, batch, contexts, limit) && |batch| == limit
    ensures Partition(e, ws + [Write(batch, contexts)], [], [], limit)
    ensures SubmittedRows(ws) + batch == e.rows
  {
    SubmittedSnoc(ws, Write(batch, contexts));
    ContextsSnoc(ws, Write(batch, contexts));
  }

  lemma {:induction false} RejectsAreValidationRecords(before: seq<Record>, records: seq<Record>)
    requires forall r :: r in records ==> r.Rejected?
    ensures ValidationRecords(before + records) == ValidationRecords(before) + records
    ensures BatchRecords(before + records) == BatchRecords(before)
  {
    RecordsConcat(before, records);
    AllRejected(records);
  }

  /** Validation records handed over, followed by those held back, are one per rejected row,
      in source order. */
  ghost predicate HeldBack(e: Expected, flushed: seq<Record>, rejects: seq<Record>) {
    flushed + rejects == e.rejects && forall r :: r in rejects ==> r.Rejected?
  }

  lemma {:induction false} HoldOne(e: Expected, flushed: seq<Record>, rejects: seq<Record>,
                                   s: SourceRow, number: int)
    requires HeldBack(e, flushed, rejects)
    requires s.result.Some? && !IsValid(s.result.value.outcome)
    ensures HeldBack(Next(e, s, number), flushed,
                     rejects + [Rejected(number, Sanitize(s.raw), s.result.value.violations)])
  {
    Reassociate(flushed, rejects,
                [Rejected(number, Sanitize(s.raw), s.result.value.violations)]);
  }

  lemma {:induction false} HandOver(e: Expected, handed: seq<Record>, rejects: seq<Record>)
    requires HeldBack(e, ValidationRecords(handed), rejects)
    ensures HeldBack(e, ValidationRecords(handed + rejects), [])
    ensures BatchRecords(handed + rejects) == BatchRecords(handed)
  {
    RejectsAreValidationRecords(handed, rejects);
  }

  // ---------------------------------------------------------------------------
  // The row loop
  // ---------------------------------------------------------------------------

  datatype Start = Start(rows: RowCounts, quality: QualityCounts, errors: ErrorCounts,
                         keys: seq<string>, table: Table, committed: seq<Row>, dropped: nat,
                         sent: seq<Record>, stored: nat)

  /** What a run that began at `start` holds after these outcomes and results. */
  ghost predicate CountedFrom(
    start: Start, rows: RowCounts, q: QualityCounts, e: ErrorCounts, keys: seq<string>, read: nat,
    rejected: nat, seen: seq<RowOutcome>, counted: seq<BatchResult>, stored: nat)
  {
    && rows == Counts(start.rows, read, rejected, Total(counted), stored)
    && Tally(q, e, start.quality, start.errors, seen, counted)
    && keys == start.keys + KeysOf(seen)
  }

  lemma {:induction false} CountedRow(
    start: Start, rows: RowCounts, q: QualityCounts, e: ErrorCounts, keys: seq<string>, read: nat,
    rejected: nat, seen: seq<RowOutcome>, counted: seq<BatchResult>, stored: nat, r: RowOutcome)
    requires CountedFrom(start, rows, q, e, keys, read, rejected, seen, counted, stored)
    ensures CountedFrom(start, RecordRowCounts(rows, r),
                        Accounting.RecordQuality(q, r.outcome, r.violations, true),
                        RecordRowErrors(e, r), keys + KeyOf(r), read,
                        rejected + if IsValid(r.outcome) then 0 else 1, seen + [r], counted, stored)
  {
    TallyRow(q, e, start.quality, start.errors, seen, counted, r);
    KeysSnoc(start.keys, seen, r);
    RejectCounts(start.rows, read, rejected, Total(counted), stored, r);
  }

  lemma {:induction false} CountedBatch(
    start: Start, rows: RowCounts, q: QualityCounts, e: ErrorCounts, keys: seq<string>, read: nat,
    rejected: nat, seen: seq<RowOutcome>, counted: seq<BatchResult>, stored: nat, r: BatchResult)
    requires CountedFrom(start, rows, q, e, keys, read, rejected, seen, counted, stored)
    ensures CountedFrom(start, RecordBatchRows(rows, r), RecordDetails(q, r.details),
                        RecordBatchErrors(e, r), keys, read, rejected, seen, counted + [r], stored)
  {
    TallyBatch(q, e, start.quality, start.errors, seen, counted, r);
    CountsStep(start.rows, read, rejected, counted, r, stored);
  }

  class RowBatchCoordinator {
    const startRow: int
    const batchSize: int
    const state: IngestionRunState
    const writer: BatchWriteCoordinator
    const quarantine: QuarantineWriter?

    ghost const start: Start
    ghost var read: nat
    ghost var rejected: nat
    ghost var seen: seq<RowOutcome>
    ghost var done: seq<Write>
    ghost var settled: seq<BatchResult>
    ghost var counted: seq<BatchResult>
    ghost var absorbed: seq<Row>
    ghost var handed: seq<Record>

    ghost predicate Ready()
      reads state, writer, writer.repository
    {
      state.Valid() && writer.Valid() && (writer.workers == 1 ==> writer.pending == [])
    }

    /** The table has grown by what the settled results report, and what they report about
        duplicates holds of it. */
    ghost predicate Written()
      reads this`done, this`settled, this`absorbed, writer.repository
    {
      && Honest(settled, done, writer.repository.table)
      && writer.repository.committed == start.committed + absorbed
      && start.table == Insert(writer.repository.initial, start.committed)
      && Books(done, settled, absorbed, |writer.repository.table| - |start.table|,
               writer.repository.dropped - start.dropped, writer.workers == 1)
    }

    ghost function Stored(): (n: int)
      reads quarantine
    {
      if quarantine == null then 0 else quarantine.stored - start.stored
    }

    /** The counters are those of the rows read and of the results recorded so far, and the
        ingestion keys those of the valid rows. */
    ghost predicate Counted()
      reads this`read, this`rejected, this`seen, this`counted, state, quarantine
    {
      && Stored() >= 0
      && CountedFrom(start, state.rows, state.quality, state.errorCounts, state.ingestionKeys, read,
                     rejected, seen, counted, Stored())
    }

    /** Quarantine was handed the conflicts of the recorded results, among other records. */
    ghost predicate Handed()
      reads this`handed, this`counted, quarantine
    {
      if quarantine == null then handed == []
      else quarantine.sent == start.sent + handed && BatchRecords(handed) == AllConflictRecords(counted)
    }

    constructor (startRow: int, batchSize: int, state: IngestionRunState,
                 writer: BatchWriteCoordinator, quarantine: QuarantineWriter?)
      requires state.Valid() && writer.Valid() && writer.pending == []
      ensures this.startRow == startRow && this.batchSize == batchSize
      ensures this.state == state && this.writer == writer && this.quarantine == quarantine
      ensures Ready() && Written() && Counted() && Handed()
      ensures start == Start(state.rows, state.quality, state.errorCounts, state.ingestionKeys,
                             writer.repository.table, writer.repository.committed,
                             writer.repository.dropped,
                             if quarantine == null then [] else quarantine.sent,
                             if quarantine == null then 0 else quarantine.stored)
      ensures read == rejected == 0 && seen == []
      ensures done == [] && settled == counted == [] && handed == []
    {
      this.startRow, this.batchSize := startRow, batchSize;
      this.state, this.writer, this.quarantine := state, writer, quarantine;
      start := Start(state.rows, state.quality, state.errorCounts, state.ingestionKeys,
                     writer.repository.table, writer.repository.committed,
                     writer.repository.dropped,
                     if quarantine == null then [] else quarantine.sent,
                     if quarantine == null then 0 else quarantine.stored);
      read, rejected, seen := 0, 0, [];
      done, settled, counted, absorbed, handed := [], [], [], [], [];
      TallyNothing(state.quality, state.errorCounts);
    }

    /** Persist a quarantine batch and update its accounting. */
    method FlushQuarantine(records: seq<Record>) returns (ok: bool)
      requires state.Valid() && Counted()
      requires quarantine != null ==> quarantine.sent == start.sent + handed
      modifies this`handed, state, quarantine
      ensures state.Valid() && Counted()
      ensures handed == old(handed) + if quarantine == null then [] else records
      ensures quarantine != null ==> quarantine.sent == start.sent + handed
    {
      if quarantine == null {
        return true;
      }
      var count := quarantine.CreateMany(records);
      Reassociate(start.sent, handed, records);
      handed := handed + records;
      if count.None? {
        return false;
      }
      state.RecordQuarantined(count.value);
      return true;
    }

    static method ConflictsToQuarantine(details: seq<DuplicateDetail>) returns (records: seq<Record>)
      requires Located(details)
      ensures records == ConflictRecords(details)
    {
      records := [];
      for i := 0 to |details|
        invariant records == ConflictRecords(details[..i])
      {
        var d := details[i];
        TakeOneMore(details, i + 1);
        if !d.duplicate.IsConflicting() {
          continue;
        }
        var context := d.context.value;
        records := records + [Conflict(context.rowNumber, Sanitize(context.raw), d.duplicate.key,
                                       d.duplicate.incoming, d.duplicate.existing)];
      }
      assert details[..|details|] == details;
    }

    /** Hand the conflicts of one result to quarantine. */
    method QuarantineConflicts(r: BatchResult) returns (ok: bool)
      requires state.Valid() && Counted() && Located(r.details)
      requires quarantine != null ==> quarantine.sent == start.sent + handed
      modifies this`handed, state, quarantine
      ensures state.Valid() && Counted()
      ensures handed == old(handed) + if quarantine == null then [] else ConflictRecords(r.details)
      ensures quarantine != null ==> quarantine.sent == start.sent + handed
    {
      if quarantine == null || r.details == [] {
        return true;
      }
      var records := ConflictsToQuarantine(r.details);
      if records == [] {
        return true;
      }
      ok := FlushQuarantine(records);
    }

    /** Count one settled result, and quarantine its conflicts. */
    method RecordResult(r: BatchResult) returns (ok: bool)
      requires state.Valid() && Counted() && Handed() && Located(r.details)
      modifies this`handed, this`counted, quarantine, state
      ensures state.Valid() && Counted() && Handed() && counted == old(counted) + [r]
      ensures ValidationRecords(handed) == old(ValidationRecords(handed))
    {
      CountedBatch(start, state.rows, state.quality, state.errorCounts, state.ingestionKeys, read,
                   rejected, seen, counted, Stored(), r);
      AllConflictsSnoc(counted, r);
      ConflictsAreBatchRecords(handed, r.details);
      state.RecordBatchResult(r);
      counted := counted + [r];
      ok := QuarantineConflicts(r);
    }

    /** Count results the writer settled, and quarantine their conflicts. */
    method RecordResults(results: seq<BatchResult>) returns (ok: bool)
      requires state.Valid() && Counted() && Handed()
      requires forall r :: r in results ==> Located(r.details)
      modifies this`handed, this`counted, quarantine, state
      ensures state.Valid() && Counted() && Handed()
      ensures ValidationRecords(handed) == old(ValidationRecords(handed))
      ensures if ok then counted == old(counted) + results else counted <= old(counted) + results
    {
      for i := 0 to |results|
        invariant state.Valid() && Counted() && Handed() && counted == old(counted) + results[..i]
        invariant ValidationRecords(handed) == old(ValidationRecords(handed))
      {
        TakeOneMore(results, i + 1);
        Reassociate(old(counted), results[..i], [results[i]]);
        ok := RecordResult(results[i]);
        if !ok {
          PrefixOfSum(old(counted), results, i + 1);
          return false;
        }
      }
      assert results[..|results|] == results;
      return true;
    }

    /** The writer's answer to the writes `ws`: their results, and the rows it absorbed. */
    ghost method Settle(ws: seq<Write>, results: seq<BatchResult>, rows: seq<Row>,
                        growth: int, dropped: int)
      requires Honest(settled, done, writer.repository.table)
      requires Honest(results, ws, writer.repository.table)
      requires Books(done, settled, absorbed, growth, dropped, writer.workers == 1)
      requires Books(ws, results, rows, |writer.repository.table| - |start.table| - growth,
                     writer.repository.dropped - start.dropped - dropped, writer.workers == 1)
      requires writer.repository.committed == start.committed + absorbed + rows
      requires start.table == Insert(writer.repository.initial, start.committed)
      modifies this`done, this`settled, this`absorbed
      ensures done == old(done) + ws && settled == old(settled) + results
      ensures absorbed == old(absorbed) + rows
      ensures Written()
      ensures writer.pending == [] ==> Submitted() == old(done) + ws
    {
      HonestConcat(settled, done, results, ws, writer.repository.table);
      BooksStep(done, settled, absorbed, growth, dropped, writer.workers == 1, ws, results, rows,
                |writer.repository.table| - |start.table|, writer.repository.dropped - start.dropped);
      Reassociate(start.committed, absorbed, rows);
      NothingAppended(done + ws);
      done, settled, absorbed := done + ws, settled + results, absorbed + rows;
    }

    /** The run stops: what the table took over comes from `rows`, and from its front when
        there is one writer, and so do the writes still under way; nothing is reported inserted
        that the table does not hold. */
    ghost predicate BrokeOff(rows: seq<Row>)
      reads this`settled, this`absorbed, writer`pending, writer.repository
    {
      && RowsOf(SubmittedRows(writer.pending), rows) && (writer.workers == 1 ==> writer.pending == [])
      && writer.repository.Valid() && writer.repository.dropped >= start.dropped
      && writer.repository.committed == start.committed + absorbed
      && start.table == Insert(writer.repository.initial, start.committed)
      && RowsOf(absorbed, rows)
      && (writer.workers == 1 && writer.repository.dropped == start.dropped ==> absorbed <= rows)
      && Total(settled).inserted <= |writer.repository.table| - |start.table|
    }

    ghost function Submitted(): (ws: seq<Write>)
      reads this`done, writer`pending
    {
      done + writer.pending
    }

    ghost method Abandon(queued: seq<Write>, batch: seq<Row>, rows: seq<Row>, growth: int, dropped: int)
      requires Books(done, settled, absorbed, growth, dropped, writer.workers == 1)
      requires RowsOf(rows, SubmittedRows(queued) + batch)
      requires writer.repository.Valid() && growth <= |writer.repository.table| - |start.table|
      requires dropped <= writer.repository.dropped - start.dropped && writer.pending == []
      requires writer.workers == 1 ==> queued == []
      requires writer.workers == 1 && dropped == writer.repository.dropped - start.dropped ==>
        rows == [] || rows == batch
      requires writer.repository.committed == start.committed + absorbed + rows
      requires start.table == Insert(writer.repository.initial, start.committed)
      modifies this`absorbed
      ensures BrokeOff(SubmittedRows(done + queued) + batch)
    {
      BreakOff(done, queued, batch, absorbed, rows);
      Reassociate(start.committed, absorbed, rows);
      absorbed := absorbed + rows;
    }

    ghost method Accept(queued: seq<Write>, w: Write, results: seq<BatchResult>, rows: seq<Row>,
                        growth: int, dropped: int)
      requires Books(done, settled, absorbed, growth, dropped, writer.workers == 1)
      requires Honest(settled, done, writer.repository.table)
      requires writer.repository.committed == start.committed + absorbed + rows
      requires start.table == Insert(writer.repository.initial, start.committed)
      requires
        if writer.pending == [] then
          Books(queued + [w], results, rows, |writer.repository.table| - |start.table| - growth,
                writer.repository.dropped - start.dropped - dropped, writer.workers == 1)
          && Honest(results, queued + [w], writer.repository.table)
        else writer.pending == queued + [w] && results == [] && rows == []
             && growth == |writer.repository.table| - |start.table|
             && dropped == writer.repository.dropped - start.dropped
      modifies this`done, this`settled, this`absorbed
      ensures Written() && settled == old(settled) + results
      ensures Submitted() == old(done) + queued + [w]
    {
      Reassociate(done, queued, [w]);
      if writer.pending == [] {
        Settle(queued + [w], results, rows, growth, dropped);
      }
    }

    method SubmitBatch(batch: seq<Row>, contexts: seq<RowContext>)
      returns (results: Option<seq<BatchResult>>)
      requires Ready() && Written() && batch != []
      modifies this`done, this`settled, this`absorbed, writer, writer.repository
      ensures results.Some? ==> Ready() && Written() && settled == old(settled) + results.value
      ensures results.Some? ==> Submitted() == old(Submitted()) + [Write(batch, contexts)]
      ensures results.None? ==> settled == old(settled)
      ensures results.None? ==> BrokeOff(old(SubmittedRows(Submitted())) + batch)
    {
      ghost var w, queued := Write(batch, contexts), writer.pending;
      ghost var table, committed := writer.repository.table, writer.repository.committed;
      ghost var grown := |writer.repository.table| - |start.table|;
      ghost var lost := writer.repository.dropped - start.dropped;
      ghost var rows;
      results, rows := writer.Submit(batch, contexts);
      if results.None? {
        Abandon(queued, batch, rows, grown, lost);
      } else {
        StaysHonest(settled, done, writer.repository.initial, committed, rows, table,
                    writer.repository.table);
        Accept(queued, w, results.value, rows, grown, lost);
      }
    }

    /** Whatever was absorbed, the counters never claim more than the table holds. */
    ghost predicate Broken(rows: seq<Row>)
      reads this, state, quarantine, writer, writer.repository
    {
      BrokeOff(rows) && counted <= settled && state.Valid() && Counted() && Handed()
    }

    /** Record the results a submission or a drain returned, if any. */
    method RecordSettled(results: seq<BatchResult>) returns (ok: bool)
      requires Ready() && Written() && Counted() && Handed() && settled == counted + results
      modifies this`handed, this`counted, quarantine, state
      ensures state.Valid() && Counted() && Handed()
      ensures ValidationRecords(handed) == old(ValidationRecords(handed))
      ensures if ok then counted == settled else Broken(SubmittedRows(Submitted()))
    {
      if results == [] {
        NothingAppended(counted);
        return true;
      }
      ResultsLocated(settled, done, |writer.repository.table| - |start.table|,
                     writer.repository.dropped - start.dropped, counted, results);
      ok := RecordResults(results);
      WrittenBreaksOff(SubmittedRows(Submitted()));
    }

    method FlushBatch(batch: seq<Row>, contexts: seq<RowContext>) returns (ok: bool)
      requires Ready() && Written() && Counted() && Handed() && counted == settled
      requires batch != []
      modifies this`done, this`settled, this`absorbed, this`handed, this`counted, quarantine,
        writer, writer.repository, state
      ensures ok ==> Ready() && Written() && Counted() && Handed() && counted == settled
      ensures ok ==> Submitted() == old(Submitted()) + [Write(batch, contexts)]
      ensures ok ==> ValidationRecords(handed) == old(ValidationRecords(handed))
      ensures !ok ==> Broken(old(SubmittedRows(Submitted())) + batch)
    {
      SubmittedSnoc(Submitted(), Write(batch, contexts));
      var results := SubmitBatch(batch, contexts);
      if results.None? {
        return false;
      }
      ok := RecordSettled(results.value);
    }

    /** Wait for the writes still pending, then record them. */
    method DrainWriter() returns (ok: bool)
      requires Ready() && Written() && Counted() && Handed() && counted == settled
      modifies this`done, this`settled, this`absorbed, this`handed, this`counted, quarantine,
        writer, writer.repository, state
      ensures ok ==> Ready() && Written() && Counted() && Handed() && counted == settled
      ensures ok ==> writer.pending == [] && done == old(Submitted())
      ensures ok ==> ValidationRecords(handed) == old(ValidationRecords(handed))
      ensures !ok ==> Broken(old(SubmittedRows(Submitted())))
    {
      var results := SettlePending();
      if results.None? {
        return false;
      }
      ok := RecordSettled(results.value);
    }

    method SettlePending() returns (results: Option<seq<BatchResult>>)
      requires Ready() && Written()
      modifies this`done, this`settled, this`absorbed, writer, writer.repository
      ensures results.Some? ==> Ready() && Written() && settled == old(settled) + results.value
      ensures results.Some? ==> done == old(Submitted()) && writer.pending == []
      ensures results.None? ==> settled == old(settled)
      ensures results.None? ==> BrokeOff(old(SubmittedRows(Submitted())))
    {
      ghost var queued := writer.pending;
      ghost var table, committed := writer.repository.table, writer.repository.committed;
      ghost var grown := |writer.repository.table| - |start.table|;
      ghost var lost := writer.repository.dropped - start.dropped;
      ghost var rows;
      results, rows := writer.Drain();
      NothingAppended(SubmittedRows(queued));
      NothingAppended(SubmittedRows(done + queued));
      if results.None? {
        Abandon(queued, [], rows, grown, lost);
      } else {
        StaysHonest(settled, done, writer.repository.initial, committed, rows, table,
                    writer.repository.table);
        Settle(queued, results.value, rows, grown, lost);
      }
    }

    lemma {:induction false} WrittenBreaksOff(rows: seq<Row>)
      requires Written() && writer.Valid() && (writer.workers == 1 ==> writer.pending == [])
      requires rows == SubmittedRows(Submitted())
      ensures BrokeOff(rows)
    {
      SubmittedConcat(done, writer.pending);
    }

    /** Number of the first row of the source. */
    ghost function First(): (n: int) { startRow + start.rows.total }

    /** Rows per batch: a size below one flushes every row. */
    ghost function Limit(): (n: nat)
      ensures n >= 1
    {
      if batchSize < 1 then 1 else batchSize
    }

    ghost predicate Sound()
      reads this`done, this`settled, this`absorbed, this`read, this`rejected, this`seen, this`counted,
        this`handed, state, writer, writer.repository, quarantine
    {
      Ready() && Written() && Counted() && Handed() && counted == settled
    }

    method CountOutcome(r: RowOutcome)
      requires state.Valid() && Counted()
      modifies this`rejected, this`seen, state
      ensures state.Valid() && Counted() && seen == old(seen) + [r]
      ensures rejected == old(rejected) + if IsValid(r.outcome) then 0 else 1
    {
      CountedRow(start, state.rows, state.quality, state.errorCounts, state.ingestionKeys, read,
                 rejected, seen, counted, Stored(), r);
      state.RecordRowOutcome(r);
      seen, rejected := seen + [r], rejected + if IsValid(r.outcome) then 0 else 1;
    }

    method NumberRow() returns (rowNumber: int)
      requires state.Valid() && Counted()
      modifies this`read, state`rows
      ensures state.Valid() && Counted() && read == old(read) + 1
      ensures rowNumber == First() + old(read)
    {
      var ordinal := state.RecordRow();
      read := read + 1;
      rowNumber := startRow + ordinal - 1;
    }

    /** Read, number, transform and count one row; `None` when the transformation raises. */
    method TakeRow(s: SourceRow) returns (rowNumber: int)
      requires state.Valid() && Counted()
      modifies this`read, this`rejected, this`seen, state
      ensures state.Valid() && Counted() && read == old(read) + 1
      ensures rowNumber == First() + old(read)
      ensures rejected
        == old(rejected) + if s.result.Some? && !IsValid(s.result.value.outcome) then 1 else 0
      ensures seen == old(seen) + OutcomeOf(s)
    {
      NothingAppended(seen);
      rowNumber := NumberRow();
      if s.result.Some? {
        CountOutcome(s.result.value);
      }
    }

    ghost predicate Buffered(e: Expected, batch: seq<Row>, contexts: seq<RowContext>)
      reads this`done, writer`pending
    {
      |batch| < Limit() && Partition(e, Submitted(), batch, contexts, Limit())
    }

    ghost predicate Held(e: Expected, rejects: seq<Record>)
      reads this`handed
    {
      && |rejects| < Limit()
      && if quarantine == null then rejects == []
         else HeldBack(e, ValidationRecords(handed), rejects)
    }

    /** A rejected row: buffer its validation record, and flush a full buffer. */
    method TakeReject(ghost e: Expected, s: SourceRow, rowNumber: int, rejects: seq<Record>)
      returns (ok: bool, rest: seq<Record>)
      requires state.Valid() && Counted() && Handed() && Held(e, rejects)
      requires s.result.Some? && !IsValid(s.result.value.outcome)
      modifies this`handed, state, quarantine
      ensures state.Valid() && Counted() && Handed()
      ensures ok ==> Held(Next(e, s, rowNumber), rest)
    {
      rest := rejects;
      if quarantine != null {
        HoldOne(e, ValidationRecords(handed), rejects, s, rowNumber);
        rest := rest + [Rejected(rowNumber, Sanitize(s.raw), s.result.value.violations)];
        if |rest| >= batchSize {
          HandOver(Next(e, s, rowNumber), handed, rest);
          ok := FlushQuarantine(rest);
          if !ok {
            return;
          }
          rest := [];
        }
      }
      var logged := state.ShouldLogRowError();
      ok := true;
    }

    /** A valid row: buffer it with its context, and flush a full buffer. */
    method TakeValid(ghost e: Expected, s: SourceRow, rowNumber: int, batch: seq<Row>,
                     contexts: seq<RowContext>)
      returns (ok: bool, rows: seq<Row>, origins: seq<RowContext>)
      requires Sound() && Buffered(e, batch, contexts)
      requires s.result.Some? && IsValid(s.result.value.outcome)
      modifies this`done, this`settled, this`absorbed, this`handed, this`counted, quarantine,
        writer, writer.repository, state
      ensures ok ==> Sound() && Buffered(Next(e, s, rowNumber), rows, origins)
      ensures ok ==> ValidationRecords(handed) == old(ValidationRecords(handed))
      ensures !ok ==> Broken(Next(e, s, rowNumber).rows)
    {
      BufferOne(e, Submitted(), batch, contexts, Limit(), s, rowNumber);
      rows, origins := batch + [s.result.value.row], contexts + [RowContext(rowNumber, s.raw)];
      ok := true;
      if |rows| >= batchSize {
        SubmitBuffer(Next(e, s, rowNumber), Submitted(), rows, origins, Limit());
        ok := FlushBatch(rows, origins);
        rows, origins := [], [];
      }
    }

    /** The loop's variables after the rows that `e` stands for. */
    ghost predicate Looping(e: Expected, batch: seq<Row>, contexts: seq<RowContext>, rejects: seq<Record>)
      reads this`done, this`settled, this`absorbed, this`read, this`rejected, this`seen, this`counted,
        this`handed, state, writer, writer.repository, quarantine
    {
      Sound() && Buffered(e, batch, contexts) && Held(e, rejects)
    }

    /** Buffer the outcome of one row, whichever it is. */
    method TakeOutcome(ghost e: Expected, s: SourceRow, rowNumber: int, batch: seq<Row>,
                       contexts: seq<RowContext>, rejects: seq<Record>)
      returns (ok: bool, rows: seq<Row>, origins: seq<RowContext>, rest: seq<Record>)
      requires Looping(e, batch, contexts, rejects)
      modifies this`done, this`settled, this`absorbed, this`handed,
        this`counted, quarantine, writer, writer.repository, state
      ensures ok ==> s.result.Some? && Looping(Next(e, s, rowNumber), rows, origins, rest)
      ensures !ok ==> Broken(Next(e, s, rowNumber).rows)
    {
      rows, origins, rest := batch, contexts, rejects;
      if s.result.None? {
        BreakHere(e, batch, contexts);
        ok := false;
      } else if IsValid(s.result.value.outcome) {
        ok, rows, origins := TakeValid(e, s, rowNumber, batch, contexts);
      } else {
        ok, rest := TakeReject(e, s, rowNumber, rejects);
        if !ok {
          BreakHere(e, batch, contexts);
        }
      }
    }

    /** Read one row and buffer what it becomes. */
    method HandleRow(ghost e: Expected, s: SourceRow, batch: seq<Row>,
                     contexts: seq<RowContext>, rejects: seq<Record>)
      returns (ok: bool, rows: seq<Row>, origins: seq<RowContext>, rest: seq<Record>,
               ghost number: int)
      requires Looping(e, batch, contexts, rejects)
      modifies this`read, this`rejected, this`seen, this`done, this`settled, this`absorbed, this`handed,
        this`counted, quarantine, writer, writer.repository, state
      ensures read == old(read) + 1 && number == First() + old(read)
      ensures rejected
        == old(rejected) + if s.result.Some? && !IsValid(s.result.value.outcome) then 1 else 0
      ensures seen == old(seen) + OutcomeOf(s)
      ensures
        if ok then s.result.Some? && Looping(Next(e, s, number), rows, origins, rest)
        else Broken(Next(e, s, number).rows)
    {
      var rowNumber := TakeRow(s);
      number := rowNumber;
      ok, rows, origins, rest := TakeOutcome(e, s, rowNumber, batch, contexts, rejects);
    }

    /** Every valid row is written, in batches that partition the rows in source order. */
    ghost predicate Closed(e: Expected)
      reads this`done, this`settled, this`absorbed, this`read, this`rejected, this`seen, this`counted,
        this`handed, state, writer, writer.repository, quarantine
    {
      && Sound() && writer.pending == []
      && SubmittedRows(done) == e.rows && SubmittedContexts(done) == e.contexts
      && Batched(done, Limit())
    }

    /** Every rejected row is handed to quarantine, once, in source order. */
    ghost predicate Quarantined(e: Expected)
      reads this`handed
    {
      quarantine != null ==> ValidationRecords(handed) == e.rejects
    }

    method FlushRest(ghost e: Expected, batch: seq<Row>, contexts: seq<RowContext>) returns (ok: bool)
      requires Sound() && Buffered(e, batch, contexts)
      modifies this`done, this`settled, this`absorbed, this`handed,
        this`counted, quarantine, writer, writer.repository, state
      ensures ok ==> Sound() && SubmittedRows(Submitted()) == e.rows
      ensures ok ==> SubmittedContexts(Submitted()) == e.contexts && Batched(Submitted(), Limit())
      ensures ok ==> ValidationRecords(handed) == old(ValidationRecords(handed))
      ensures !ok ==> Broken(e.rows)
    {
      LastBuffer(e, Submitted(), batch, contexts, Limit());
      ok := true;
      if batch != [] {
        ok := FlushBatch(batch, contexts);
      }
    }

    /** After the last row: flush the batch buffer and drain the writer. */
    method FlushWrites(ghost e: Expected, batch: seq<Row>, contexts: seq<RowContext>)
      returns (ok: bool)
      requires Sound() && Buffered(e, batch, contexts)
      modifies this`done, this`settled, this`absorbed, this`handed,
        this`counted, quarantine, writer, writer.repository, state
      ensures ok ==> ValidationRecords(handed) == old(ValidationRecords(handed))
      ensures if ok then Closed(e) else Broken(e.rows)
    {
      ok := FlushRest(e, batch, contexts);
      if ok {
        ok := DrainWriter();
      }
    }

    /** After the last row: flush both buffers. */
    method Finish(ghost e: Expected, batch: seq<Row>, contexts: seq<RowContext>, rejects: seq<Record>)
      returns (ok: bool)
      requires Looping(e, batch, contexts, rejects)
      modifies this`done, this`settled, this`absorbed, this`handed,
        this`counted, quarantine, writer, writer.repository, state
      ensures if ok then Closed(e) && Quarantined(e) else Broken(e.rows)
    {
      ok := FlushWrites(e, batch, contexts);
      if ok {
        ok := FlushRejects(e, rejects);
      }
    }

    method FlushRejects(ghost e: Expected, rejects: seq<Record>) returns (ok: bool)
      requires Closed(e) && Held(e, rejects)
      modifies this`handed, state, quarantine
      ensures if ok then Closed(e) && Quarantined(e) else Broken(e.rows)
    {
      ok := true;
      NothingAppended(done);
      WrittenBreaksOff(e.rows);
      if quarantine != null {
        HandOver(e, handed, rejects);
        NothingAppended(ValidationRecords(handed + rejects));
        NothingAppended(ValidationRecords(handed));
      }
      if rejects != [] {
        ok := FlushQuarantine(rejects);
      }
    }

    method ReadRows(source: seq<SourceRow>)
      returns (ok: bool, batch: seq<Row>, contexts: seq<RowContext>, rejects: seq<Record>)
      requires Looping(Expected([], [], []), [], [], []) && read == rejected == 0 && seen == []
      modifies this`read, this`rejected, this`seen, this`done, this`settled, this`absorbed, this`handed,
        this`counted, quarantine, writer, writer.repository, state
      ensures ok ==> Processable(source) && read == |source|
      ensures ok ==> rejected == |Expect(source, First()).rejects| && seen == OutcomesOf(source)
      ensures ok ==> Looping(Expect(source, First()), batch, contexts, rejects)
      ensures !ok ==> Broken(Expect(source, First()).rows) && seen <= OutcomesOf(source)
    {
      batch, contexts, rejects := [], [], [];
      ghost var e := Expected([], [], []);
      for i := 0 to |source|
        invariant Looping(e, batch, contexts, rejects) && read == i && rejected == |e.rejects|
        invariant seen == OutcomesOf(source[..i])
        invariant e == Expect(source[..i], First())
        invariant Processable(source[..i])
      {
        ghost var number;
        ok, batch, contexts, rejects, number := HandleRow(e, source[i], batch, contexts, rejects);
        ExpectNext(source, i, First(), number);
        OutcomesNext(source, i);
        NextGrows(e, source[i], number);
        e := Next(e, source[i], number);
        if !ok {
          ExpectGrows(source, i + 1, First());
          OutcomesGrow(source, i + 1);
          BreakGrows(e.rows, Expect(source, First()).rows);
          return;
        }
        ProcessableNext(source, i);
      }
      assert source[..|source|] == source;
      ok := true;
    }

    /** The reader ends, or breaks off after the last row it yields. */
    method End(ghost e: Expected, breaks: bool, batch: seq<Row>, contexts: seq<RowContext>,
               rejects: seq<Record>)
      returns (ok: bool)
      requires Looping(e, batch, contexts, rejects)
      modifies this`done, this`settled, this`absorbed, this`handed,
        this`counted, quarantine, writer, writer.repository, state
      ensures if ok then !breaks && Closed(e) && Quarantined(e) else Broken(e.rows)
    {
      if breaks {
        BreakHere(e, batch, contexts);
        ok := false;
      } else {
        ok := Finish(e, batch, contexts, rejects);
      }
    }

    /** Read all rows, and flush what is left. */
    method Process(source: seq<SourceRow>, breaks: bool) returns (ok: bool)
      requires Sound() && read == rejected == 0 && seen == []
      requires done == [] && handed == [] && writer.pending == []
      modifies this`read, this`rejected, this`seen, this`done, this`settled, this`absorbed, this`handed,
        this`counted, quarantine, writer, writer.repository, state
      ensures ok ==> !breaks && Processable(source) && read == |source|
      ensures if ok then seen == OutcomesOf(source) else seen <= OutcomesOf(source)
      ensures var e := Expect(source, First());
        if ok then Closed(e) && Quarantined(e) && rejected == |e.rejects| else Broken(e.rows)
    {
      NothingSubmitted();
      var batch, contexts, rejects;
      ok, batch, contexts, rejects := ReadRows(source);
      if ok {
        ok := End(Expect(source, First()), breaks, batch, contexts, rejects);
      }
    }

    /** The run is over, but writes it submitted and no longer waits for may still commit. */
    method LeaveWrites(ghost rows: seq<Row>)
      requires Broken(rows)
      modifies this`absorbed, writer, writer.repository
      ensures Broken(rows) && writer.pending == []
    {
      ghost var more := writer.LeavePending();
      Reassociate(start.committed, absorbed, more);
      absorbed := absorbed + more;
    }

    /** Run over a source. When the run breaks off, any of the writes still under way may commit,
        in any order, before anything else happens to the table. */
    method Run(source: seq<SourceRow>, breaks: bool) returns (ok: bool)
      requires Sound() && read == rejected == 0 && seen == []
      requires done == [] && handed == [] && writer.pending == []
      modifies this`read, this`rejected, this`seen, this`done, this`settled, this`absorbed, this`handed,
        this`counted, quarantine, writer, writer.repository, state
      ensures ok ==> !breaks && Processable(source) && read == |source|
      ensures if ok then seen == OutcomesOf(source) else seen <= OutcomesOf(source)
      ensures writer.pending == []
      ensures var e := Expect(source, First());
        if ok then Closed(e) && Quarantined(e) && rejected == |e.rejects| else Broken(e.rows)
    {
      ok := Process(source, breaks);
      if !ok {
        LeaveWrites(Expect(source, First()).rows);
      }
    }

    lemma {:induction false} BreakGrows(rows: seq<Row>, all: seq<Row>)
      requires BrokeOff(rows) && rows <= all
      ensures BrokeOff(all)
    {
    }

    lemma {:induction false} NothingSubmitted()
      requires done == [] && handed == [] && writer.pending == []
      ensures Buffered(Expected([], [], []), [], []) && Held(Expected([], [], []), [])
    {
    }

    lemma {:induction false} BreakHere(e: Expected, batch: seq<Row>, contexts: seq<RowContext>)
      requires Ready() && Written() && Buffered(e, batch, contexts)
      ensures BrokeOff(e.rows)
    {
      WrittenBreaksOff(SubmittedRows(Submitted()));
      BreakExtends(SubmittedRows(Submitted()), batch);
    }

    lemma {:induction false} BreakExtends(rows: seq<Row>, more: seq<Row>)
      requires BrokeOff(rows)
      ensures BrokeOff(rows + more)
    {
    }
  }

  /** More rows do not make settled results untrue. */
  lemma {:induction false} StaysHonest(rs: seq<BatchResult>, ws: seq<Write>, initial: Table,
                                       committed: seq<Row>, rows: seq<Row>, t: Table, t': Table)
    requires Honest(rs, ws, t)
    requires t == Insert(initial, committed) && t' == Insert(initial, committed + rows)
    ensures Honest(rs, ws, t')
  {
    InsertConcat(initial, committed, rows);
    InsertExtends(t, rows);
    HonestExtends(rs, ws, t, t');
  }

  lemma {:induction false} BreakOff(done: seq<Write>, queued: seq<Write>, batch: seq<Row>,
                                    absorbed: seq<Row>, rows: seq<Row>)
    requires RowsOf(absorbed, SubmittedRows(done))
    requires RowsOf(rows, SubmittedRows(queued) + batch)
    ensures RowsOf(absorbed + rows, SubmittedRows(done + queued) + batch)
    ensures queued == [] && absorbed == SubmittedRows(done) && (rows == [] || rows == batch) ==>
      absorbed + rows <= SubmittedRows(done + queued) + batch
  {
    SubmittedConcat(done, queued);
    if queued == [] {
      assert done + queued == done;
    }
  }
}
