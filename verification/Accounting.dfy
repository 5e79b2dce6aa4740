/** What an ingestion run counts, event by event, and the laws of that accounting. */
module Accounting {
  import opened Sequences
  import opened TransactionTable
  import opened Quality
  import opened Contracts

  const ERROR_SAMPLE_LIMIT := 5

  datatype RowCounts = RowCounts(
    total: nat, success: nat, failed: nat, duplicate: nat, rejected: nat,
    persistenceFailed: nat, quarantined: nat)

  /** Whether a run completed with row-level or persistence defects. */
  predicate Partial(c: RowCounts) { c.rejected > 0 || c.persistenceFailed > 0 || c.quarantined > 0 }

  /** Python's `Counter`s are multisets. */
  datatype QualityCounts = QualityCounts(
    equivalent: nat, conflicting: nat, warning: nat,
    rules: multiset<RuleCode>, outcomes: multiset<Outcome>)

  datatype ErrorCounts = ErrorCounts(count: nat, fields: set<string>)

  datatype Counters = Counters(rows: RowCounts, quality: QualityCounts, errors: ErrorCounts)

  const ZERO := Counters(RowCounts(0, 0, 0, 0, 0, 0, 0),
                         QualityCounts(0, 0, 0, multiset{}, multiset{}), ErrorCounts(0, {}))

  datatype Event =
    | RowRead
    | RowDone(row: RowOutcome)
    | Evaluated(evaluation: Evaluation)
    | BatchWritten(result: BatchResult)
    | WriteFailed
    | QuarantineWritten(count: nat)
    | ErrorAdded(error: RunError)

  // ---------------------------------------------------------------------------
  // Recording
  // ---------------------------------------------------------------------------

  function RecordError(c: ErrorCounts, e: RunError): (c': ErrorCounts) {
    ErrorCounts(c.count + 1, if e.field == "" then c.fields else c.fields + {e.field})
  }

  function Fields(violations: seq<Violation>): (fields: set<string>) {
    set v | v in violations && v.field != "" :: v.field
  }

  function RecordViolations(c: ErrorCounts, violations: seq<Violation>): (c': ErrorCounts) {
    ErrorCounts(c.count + |violations|, c.fields + Fields(violations))
  }

  function RecordQuality(c: QualityCounts, o: Outcome, violations: seq<Violation>, aboutRow: bool)
    : (c': QualityCounts)
  {
    QualityCounts(
      if o.EquivalentDuplicate? then c.equivalent + 1 else c.equivalent,
      if o.ConflictingDuplicate? then c.conflicting + 1 else c.conflicting,
      if o.Warning? && aboutRow then c.warning + 1 else c.warning,
      if o.Valid? then c.rules else c.rules + Codes(violations),
      c.outcomes + multiset{o})
  }

  function RecordRowCounts(c: RowCounts, r: RowOutcome): (c': RowCounts) {
    if IsValid(r.outcome) then c else c.(failed := c.failed + 1, rejected := c.rejected + 1)
  }

  function RecordRowErrors(c: ErrorCounts, r: RowOutcome): (c': ErrorCounts) {
    if IsValid(r.outcome) && !r.outcome.Warning? then c else RecordViolations(c, r.violations)
  }

  function RecordRow(c: Counters, r: RowOutcome): (c': Counters) {
    Counters(RecordRowCounts(c.rows, r),
             RecordQuality(c.quality, r.outcome, r.violations, true),
             RecordRowErrors(c.errors, r))
  }

  function DetailEvaluation(d: DuplicateDetail): (e: Evaluation) {
    if d.duplicate.IsConflicting() then
      Evaluation(ConflictingDuplicate,
                 [Violation(ConflictingDuplicateRule, Error, ConflictingDuplicate, "ingestion_key")],
                 d.context.Some?)
    else
      Evaluation(EquivalentDuplicate,
                 [Violation(EquivalentDuplicateRule, Info, EquivalentDuplicate, "ingestion_key")],
                 d.context.Some?)
  }

  function RecordEvaluation(c: QualityCounts, e: Evaluation): (c': QualityCounts) {
    RecordQuality(c, InferOutcome(e.outcome, e.violations), e.violations, e.aboutRow)
  }

  function RecordDetails(c: QualityCounts, details: seq<DuplicateDetail>): (c': QualityCounts) {
    if details == [] then c
    else
      RecordEvaluation(RecordDetails(c, details[..|details| - 1]),
                       DetailEvaluation(details[|details| - 1]))
  }

  const DUPLICATES_SKIPPED := RunError("transaction_duplicate", "ingestion key already exists")
  const ROWS_FAILED := RunError("batch_conflict", "failed during batch persistence")

  function RecordBatchErrors(c: ErrorCounts, r: BatchResult): (c': ErrorCounts) {
    var skipped := if r.duplicates > 0 then RecordError(c, DUPLICATES_SKIPPED) else c;
    if r.failed > 0 then RecordError(skipped, ROWS_FAILED) else skipped
  }

  function RecordBatchRows(c: RowCounts, r: BatchResult): (c': RowCounts) {
    c.(success := c.success + r.inserted, duplicate := c.duplicate + r.duplicates,
       failed := c.failed + r.failed, persistenceFailed := c.persistenceFailed + r.failed)
  }

  function RecordBatch(c: Counters, r: BatchResult): (c': Counters) {
    Counters(RecordBatchRows(c.rows, r), RecordDetails(c.quality, r.details),
             RecordBatchErrors(c.errors, r))
  }

  function Record(c: Counters, e: Event): (c': Counters) {
    match e
    case RowRead => c.(rows := c.rows.(total := c.rows.total + 1))
    case RowDone(r) => RecordRow(c, r)
    case Evaluated(v) => c.(quality := RecordEvaluation(c.quality, v))
    case BatchWritten(r) => RecordBatch(c, r)
    case WriteFailed =>
      c.(rows := c.rows.(failed := c.rows.failed + 1,
                         persistenceFailed := c.rows.persistenceFailed + 1))
    case QuarantineWritten(n) => c.(rows := c.rows.(quarantined := c.rows.quarantined + n))
    case ErrorAdded(err) => c.(errors := RecordError(c.errors, err))
  }

  function Recorded(events: seq<Event>): (c: Counters) {
    if events == [] then ZERO else Record(Recorded(events[..|events| - 1]), events[|events| - 1])
  }

  // ---------------------------------------------------------------------------
  // Order independence
  // ---------------------------------------------------------------------------

  function AddRows(a: RowCounts, b: RowCounts): (c: RowCounts) {
    RowCounts(a.total + b.total, a.success + b.success, a.failed + b.failed,
              a.duplicate + b.duplicate, a.rejected + b.rejected,
              a.persistenceFailed + b.persistenceFailed, a.quarantined + b.quarantined)
  }

  function AddQuality(a: QualityCounts, b: QualityCounts): (c: QualityCounts) {
    QualityCounts(a.equivalent + b.equivalent, a.conflicting + b.conflicting,
                  a.warning + b.warning, a.rules + b.rules, a.outcomes + b.outcomes)
  }

  function AddErrors(a: ErrorCounts, b: ErrorCounts): (c: ErrorCounts) {
    ErrorCounts(a.count + b.count, a.fields + b.fields)
  }

  function Add(a: Counters, b: Counters): (c: Counters) {
    Counters(AddRows(a.rows, b.rows), AddQuality(a.quality, b.quality), AddErrors(a.errors, b.errors))
  }

  /** What one event contributes, whatever was counted before. */
  function Delta(e: Event): (c: Counters) { Record(ZERO, e) }

  lemma {:induction false} RowsDoneAdd(c: RowCounts, r: RowOutcome)
    ensures RecordRowCounts(c, r) == AddRows(c, RecordRowCounts(ZERO.rows, r))
  {
  }

  lemma {:induction false} BatchRowsAdd(c: RowCounts, r: BatchResult)
    ensures RecordBatchRows(c, r) == AddRows(c, RecordBatchRows(ZERO.rows, r))
  {
  }

  lemma {:induction false} OneRowAdds(c: RowCounts, n: nat)
    ensures c.(total := c.total + 1) == AddRows(c, ZERO.rows.(total := 1))
    ensures c.(failed := c.failed + 1, persistenceFailed := c.persistenceFailed + 1)
      == AddRows(c, ZERO.rows.(failed := 1, persistenceFailed := 1))
    ensures c.(quarantined := c.quarantined + n) == AddRows(c, ZERO.rows.(quarantined := n))
    ensures c == AddRows(c, ZERO.rows)
  {
  }

  lemma {:induction false} RecordAddsRows(c: Counters, e: Event)
    ensures Record(c, e).rows == AddRows(c.rows, Delta(e).rows)
  {
    match e
    case RowDone(r) => RowsDoneAdd(c.rows, r);
    case BatchWritten(r) => BatchRowsAdd(c.rows, r);
    case QuarantineWritten(n) => OneRowAdds(c.rows, n);
    case _ => OneRowAdds(c.rows, 0);
  }

  lemma {:induction false} MultisetAssociates<T>(a: multiset<T>, b: multiset<T>, c: multiset<T>)
    ensures a + b + c == a + (b + c)
  {
  }

  lemma {:induction false} QualityAdds(a: QualityCounts, b: QualityCounts, o: Outcome,
                                       vs: seq<Violation>, row: bool)
    ensures RecordQuality(AddQuality(a, b), o, vs, row) == AddQuality(a, RecordQuality(b, o, vs, row))
  {
    MultisetAssociates(a.rules, b.rules, Codes(vs));
    MultisetAssociates(a.outcomes, b.outcomes, multiset{o});
  }

  lemma {:induction false} DetailsAdd(a: QualityCounts, b: QualityCounts, ds: seq<DuplicateDetail>)
    ensures RecordDetails(AddQuality(a, b), ds) == AddQuality(a, RecordDetails(b, ds))
  {
    if ds != [] {
      var init, e := ds[..|ds| - 1], DetailEvaluation(ds[|ds| - 1]);
      DetailsAdd(a, b, init);
      QualityAdds(a, RecordDetails(b, init), InferOutcome(e.outcome, e.violations), e.violations,
                  e.aboutRow);
    }
  }

  lemma {:induction false} QualityAddsZero(c: QualityCounts)
    ensures AddQuality(c, ZERO.quality) == c
  {
    assert c.rules + multiset{} == c.rules && c.outcomes + multiset{} == c.outcomes;
  }

  lemma {:induction false} RecordAddsQuality(c: Counters, e: Event)
    ensures Record(c, e).quality == AddQuality(c.quality, Delta(e).quality)
  {
    QualityAddsZero(c.quality);
    match e
    case RowDone(r) => QualityAdds(c.quality, ZERO.quality, r.outcome, r.violations, true);
    case Evaluated(v) =>
      QualityAdds(c.quality, ZERO.quality, InferOutcome(v.outcome, v.violations), v.violations,
                  v.aboutRow);
    case BatchWritten(r) => DetailsAdd(c.quality, ZERO.quality, r.details);
    case _ =>
  }

  lemma {:induction false} ErrorAdds(a: ErrorCounts, b: ErrorCounts, e: RunError)
    ensures RecordError(AddErrors(a, b), e) == AddErrors(a, RecordError(b, e))
    ensures AddErrors(a, ZERO.errors) == a
  {
  }

  lemma {:induction false} RecordAddsErrors(c: Counters, e: Event)
    ensures Record(c, e).errors == AddErrors(c.errors, Delta(e).errors)
  {
    ErrorAdds(c.errors, ZERO.errors, DUPLICATES_SKIPPED);
    ErrorAdds(c.errors, ZERO.errors, ROWS_FAILED);
    ErrorAdds(c.errors, RecordError(ZERO.errors, DUPLICATES_SKIPPED), ROWS_FAILED);
    match e
    case ErrorAdded(err) => ErrorAdds(c.errors, ZERO.errors, err);
    case _ =>
  }

  lemma {:induction false} RecordAdds(c: Counters, e: Event)
    ensures Record(c, e) == Add(c, Delta(e))
  {
    RecordAddsRows(c, e);
    RecordAddsQuality(c, e);
    RecordAddsErrors(c, e);
  }

  lemma {:induction false} AddSwaps(s: Counters, a: Counters, b: Counters)
    ensures Add(Add(s, a), b) == Add(Add(s, b), a)
  {
    var x, y := Add(Add(s, a), b).quality, Add(Add(s, b), a).quality;
    assert x.rules == y.rules && x.outcomes == y.outcomes;
  }

  lemma {:induction false} RecordSwaps(s: Counters, a: Event, b: Event)
    ensures Swaps(Record, s, a, b)
  {
    RecordAdds(s, a);
    RecordAdds(s, b);
    RecordAdds(Add(s, Delta(a)), b);
    RecordAdds(Add(s, Delta(b)), a);
    AddSwaps(s, Delta(a), Delta(b));
  }

  lemma {:induction false} RecordedIsFold(events: seq<Event>)
    ensures Recorded(events) == Fold(Record, ZERO, events)
  {
    if events != [] {
      var init, last := events[..|events| - 1], events[|events| - 1];
      assert events == init + [last];
      RecordedIsFold(init);
      FoldSnoc(Record, ZERO, init, last);
    }
  }

  /** Counters, and the disposition they imply, do not depend on the order in which rows,
      evaluations and batch results are recorded. */
  lemma {:induction false} OrderIndependence(xs: seq<Event>, ys: seq<Event>)
    requires multiset(xs) == multiset(ys)
    ensures Recorded(xs) == Recorded(ys)
    ensures DispositionAfter(xs) == DispositionAfter(ys)
  {
    forall s: Counters, a: Event, b: Event
      ensures Swaps(Record, s, a, b)
    {
      RecordSwaps(s, a, b);
    }
    FoldPermutation(Record, ZERO, xs, ys);
    RecordedIsFold(xs);
    RecordedIsFold(ys);
    IncrementalDisposition(xs);
    IncrementalDisposition(ys);
  }

  // ---------------------------------------------------------------------------
  // Rows and results of one run
  // ---------------------------------------------------------------------------

  /** What recording events on top of `c` counts. */
  function RecordedFrom(c: Counters, events: seq<Event>): (c': Counters) {
    Fold(Record, c, events)
  }

  function RowEvents(rows: seq<RowOutcome>): (es: seq<Event>) {
    seq(|rows|, i requires 0 <= i < |rows| => RowDone(rows[i]))
  }

  function BatchEvents(results: seq<BatchResult>): (es: seq<Event>) {
    seq(|results|, i requires 0 <= i < |results| => BatchWritten(results[i]))
  }

  /** The events record these rows and results, in some order. */
  ghost predicate Interleaves(events: seq<Event>, rows: seq<RowOutcome>, results: seq<BatchResult>) {
    multiset(events) == multiset(RowEvents(rows)) + multiset(BatchEvents(results))
  }

  /** From `q0` and `e0`, recording the rows and results counts `q` and `e`, in whatever order
      they are recorded. */
  ghost predicate Tally(q: QualityCounts, e: ErrorCounts, q0: QualityCounts, e0: ErrorCounts,
                        rows: seq<RowOutcome>, results: seq<BatchResult>)
  {
    forall events {:trigger Interleaves(events, rows, results)} :: Interleaves(events, rows, results) ==>
      var after := RecordedFrom(Counters(ZERO.rows, q0, e0), events);
      after.quality == q && after.errors == e
  }

  lemma {:induction false} TallyNothing(q: QualityCounts, e: ErrorCounts)
    ensures Tally(q, e, q, e, [], [])
  {
    forall events | Interleaves(events, [], []) ensures events == [] {
      assert |multiset(events)| == |events|;
    }
  }

  lemma {:induction false} RowEventsSnoc(rows: seq<RowOutcome>, r: RowOutcome)
    ensures multiset(RowEvents(rows + [r])) == multiset(RowEvents(rows)) + multiset{RowDone(r)}
  {
    assert RowEvents(rows + [r]) == RowEvents(rows) + [RowDone(r)];
  }

  lemma {:induction false} BatchEventsSnoc(rs: seq<BatchResult>, r: BatchResult)
    ensures multiset(BatchEvents(rs + [r])) == multiset(BatchEvents(rs)) + multiset{BatchWritten(r)}
  {
    assert BatchEvents(rs + [r]) == BatchEvents(rs) + [BatchWritten(r)];
  }

  /** An event recorded anywhere could as well have been recorded last. */
  lemma {:induction false} RecordedLast(s: Counters, events: seq<Event>, i: nat)
    requires i < |events|
    ensures RecordedFrom(s, events) == Record(RecordedFrom(s, Without(events, i)), events[i])
  {
    forall c: Counters, a: Event, b: Event ensures Swaps(Record, c, a, b) {
      RecordSwaps(c, a, b);
    }
    MultisetWithout(events, i);
    FoldPermutation(Record, s, events, Without(events, i) + [events[i]]);
    FoldSnoc(Record, s, Without(events, i), events[i]);
  }

  /** Take one recording of an event out of a tally with it. */
  lemma {:induction false} TakeOut(q: QualityCounts, e: ErrorCounts, q0: QualityCounts,
                                   e0: ErrorCounts, rows: seq<RowOutcome>,
                                   results: seq<BatchResult>, events: seq<Event>, event: Event)
    returns (c: Counters)
    requires Tally(q, e, q0, e0, rows, results)
    requires multiset(events)
      == multiset(RowEvents(rows)) + multiset(BatchEvents(results)) + multiset{event}
    ensures c.quality == q && c.errors == e
    ensures RecordedFrom(Counters(ZERO.rows, q0, e0), events) == Record(c, event)
  {
    assert event in multiset(events);
    var i :| 0 <= i < |events| && events[i] == event;
    MultisetWithout(events, i);
    assert Interleaves(Without(events, i), rows, results);
    RecordedLast(Counters(ZERO.rows, q0, e0), events, i);
    c := RecordedFrom(Counters(ZERO.rows, q0, e0), Without(events, i));
  }

  lemma {:induction false} TallyRow(q: QualityCounts, e: ErrorCounts, q0: QualityCounts,
                                    e0: ErrorCounts, rows: seq<RowOutcome>,
                                    results: seq<BatchResult>, r: RowOutcome)
    requires Tally(q, e, q0, e0, rows, results)
    ensures Tally(RecordQuality(q, r.outcome, r.violations, true), RecordRowErrors(e, r), q0, e0,
                  rows + [r], results)
  {
    RowEventsSnoc(rows, r);
    forall events | Interleaves(events, rows + [r], results)
      ensures var after := RecordedFrom(Counters(ZERO.rows, q0, e0), events);
        && after.quality == RecordQuality(q, r.outcome, r.violations, true)
        && after.errors == RecordRowErrors(e, r)
    {
      var c := TakeOut(q, e, q0, e0, rows, results, events, RowDone(r));
    }
  }

  lemma {:induction false} TallyBatch(q: QualityCounts, e: ErrorCounts, q0: QualityCounts,
                                      e0: ErrorCounts, rows: seq<RowOutcome>,
                                      results: seq<BatchResult>, r: BatchResult)
    requires Tally(q, e, q0, e0, rows, results)
    ensures Tally(RecordDetails(q, r.details), RecordBatchErrors(e, r), q0, e0, rows, results + [r])
  {
    BatchEventsSnoc(results, r);
    forall events | Interleaves(events, rows, results + [r])
      ensures var after := RecordedFrom(Counters(ZERO.rows, q0, e0), events);
        && after.quality == RecordDetails(q, r.details)
        && after.errors == RecordBatchErrors(e, r)
    {
      var c := TakeOut(q, e, q0, e0, rows, results, events, BatchWritten(r));
    }
  }

  // ---------------------------------------------------------------------------
  // Disposition
  // ---------------------------------------------------------------------------

  /** The outcomes an event counts, in the order the state advances over them. */
  function Outcomes(e: Event): (os: seq<Outcome>) {
    match e
    case RowDone(r) => [r.outcome]
    case Evaluated(v) => [InferOutcome(v.outcome, v.violations)]
    case BatchWritten(r) => DetailOutcomes(r.details)
    case _ => []
  }

  function DetailOutcomes(details: seq<DuplicateDetail>): (os: seq<Outcome>) {
    if details == [] then []
    else
      var e := DetailEvaluation(details[|details| - 1]);
      DetailOutcomes(details[..|details| - 1]) + [InferOutcome(e.outcome, e.violations)]
  }

  function AdvanceAll(d: Disposition, os: seq<Outcome>): (d': Disposition) {
    if os == [] then d else Advance(AdvanceAll(d, os[..|os| - 1]), os[|os| - 1])
  }

  /** The decision and action a run holds after its events, advanced outcome by outcome. */
  function DispositionAfter(events: seq<Event>): (d: Disposition) {
    if events == [] then START
    else AdvanceAll(DispositionAfter(events[..|events| - 1]), Outcomes(events[|events| - 1]))
  }

  lemma {:induction false} AdvanceAllIsRecount(outcomes: multiset<Outcome>, os: seq<Outcome>)
    ensures AdvanceAll(FromOutcomes(outcomes), os) == FromOutcomes(outcomes + multiset(os))
  {
    if os == [] {
      assert outcomes + multiset(os) == outcomes;
    } else {
      var init, last := os[..|os| - 1], os[|os| - 1];
      AdvanceAllIsRecount(outcomes, init);
      AdvanceIsRecount(outcomes + multiset(init), last);
      assert os == init + [last];
      assert outcomes + multiset(os) == outcomes + multiset(init) + multiset{last};
    }
  }

  lemma {:induction false} DetailOutcomesCounted(c: QualityCounts, details: seq<DuplicateDetail>)
    ensures RecordDetails(c, details).outcomes == c.outcomes + multiset(DetailOutcomes(details))
  {
    if details != [] {
      DetailOutcomesCounted(c, details[..|details| - 1]);
    }
  }

  lemma {:induction false} OutcomesCounted(c: Counters, e: Event)
    ensures Record(c, e).quality.outcomes == c.quality.outcomes + multiset(Outcomes(e))
  {
    if e.BatchWritten? {
      DetailOutcomesCounted(c.quality, e.result.details);
    }
  }

  lemma {:induction false} DispositionStep(c: Counters, e: Event)
    ensures AdvanceAll(FromOutcomes(c.quality.outcomes), Outcomes(e))
      == FromOutcomes(Record(c, e).quality.outcomes)
  {
    OutcomesCounted(c, e);
    AdvanceAllIsRecount(c.quality.outcomes, Outcomes(e));
  }

  /** The disposition advanced event by event is always the one recomputed from the
      accumulated outcome counts. */
  lemma {:induction false} IncrementalDisposition(events: seq<Event>)
    ensures DispositionAfter(events) == FromOutcomes(Recorded(events).quality.outcomes)
  {
    if events != [] {
      IncrementalDisposition(events[..|events| - 1]);
      DispositionStep(Recorded(events[..|events| - 1]), events[|events| - 1]);
    }
  }

  // ---------------------------------------------------------------------------
  // Consistency of the counters
  // ---------------------------------------------------------------------------

  predicate QualityConsistent(c: QualityCounts) {
    && c.conflicting == c.outcomes[ConflictingDuplicate]
    && c.equivalent == c.outcomes[EquivalentDuplicate]
    && c.warning <= c.outcomes[Warning]
  }

  lemma {:induction false} RecordQualityConsistent(c: QualityCounts, o: Outcome, vs: seq<Violation>,
                                                   aboutRow: bool)
    requires QualityConsistent(c)
    ensures QualityConsistent(RecordQuality(c, o, vs, aboutRow))
  {
  }

  lemma {:induction false} DetailOutcome(d: DuplicateDetail)
    ensures var e := DetailEvaluation(d);
      InferOutcome(e.outcome, e.violations)
        == if d.duplicate.IsConflicting() then ConflictingDuplicate else EquivalentDuplicate
  {
    var e := DetailEvaluation(d);
    assert e.violations[0] in e.violations;
  }

  /** Each duplicate detail is counted once, as the kind of duplicate it is. */
  lemma {:induction false} DetailsCounted(c: QualityCounts, details: seq<DuplicateDetail>)
    requires QualityConsistent(c)
    ensures QualityConsistent(RecordDetails(c, details))
    ensures RecordDetails(c, details).conflicting == c.conflicting + Conflicts(details)
    ensures RecordDetails(c, details).equivalent == c.equivalent + |details| - Conflicts(details)
  {
    if details != [] {
      var init, e := details[..|details| - 1], DetailEvaluation(details[|details| - 1]);
      DetailsCounted(c, init);
      DetailOutcome(details[|details| - 1]);
      RecordQualityConsistent(RecordDetails(c, init), InferOutcome(e.outcome, e.violations),
                              e.violations, e.aboutRow);
    }
  }

  function Conflicts(details: seq<DuplicateDetail>): (n: nat) {
    if details == [] then 0
    else
      Conflicts(details[..|details| - 1])
      + if details[|details| - 1].duplicate.IsConflicting() then 1 else 0
  }

  lemma {:induction false} DetailConflicts(c: QualityCounts, details: seq<DuplicateDetail>)
    ensures RecordDetails(c, details).conflicting == c.conflicting + Conflicts(details)
  {
    if details != [] {
      DetailConflicts(c, details[..|details| - 1]);
      DetailOutcome(details[|details| - 1]);
    }
  }

  /** How many conflicts an event reports. */
  function ConflictsOf(e: Event): (n: nat) {
    match e
    case RowDone(r) => if r.outcome.ConflictingDuplicate? then 1 else 0
    case Evaluated(v) =>
      if InferOutcome(v.outcome, v.violations).ConflictingDuplicate? then 1 else 0
    case BatchWritten(r) => Conflicts(r.details)
    case _ => 0
  }

  lemma {:induction false} ConflictsCounted(c: Counters, e: Event)
    ensures Record(c, e).quality.conflicting == c.quality.conflicting + ConflictsOf(e)
  {
    if e.BatchWritten? {
      DetailConflicts(c.quality, e.result.details);
    }
  }

  function RowConflicts(rows: seq<RowOutcome>): (n: nat) {
    if rows == [] then 0
    else RowConflicts(rows[..|rows| - 1]) + ConflictsOf(RowDone(rows[|rows| - 1]))
  }

  function ConflictTotal(rs: seq<BatchResult>): (n: nat) {
    if rs == [] then 0 else ConflictTotal(rs[..|rs| - 1]) + Conflicts(rs[|rs| - 1].details)
  }

  lemma {:induction false} OneMoreCounted(s: Counters, events: seq<Event>, e: Event)
    ensures RecordedFrom(s, events + [e]).quality.conflicting
      == RecordedFrom(s, events).quality.conflicting + ConflictsOf(e)
  {
    FoldSnoc(Record, s, events, e);
    ConflictsCounted(RecordedFrom(s, events), e);
  }

  lemma {:induction false} RowConflictsCounted(s: Counters, rows: seq<RowOutcome>)
    ensures RecordedFrom(s, RowEvents(rows)).quality.conflicting
      == s.quality.conflicting + RowConflicts(rows)
  {
    if rows != [] {
      var init, r := rows[..|rows| - 1], rows[|rows| - 1];
      RowConflictsCounted(s, init);
      assert RowEvents(rows) == RowEvents(init) + [RowDone(r)];
      OneMoreCounted(s, RowEvents(init), RowDone(r));
    }
  }

  lemma {:induction false} BatchConflictsCounted(s: Counters, events: seq<Event>, rs: seq<BatchResult>)
    ensures RecordedFrom(s, events + BatchEvents(rs)).quality.conflicting
      == RecordedFrom(s, events).quality.conflicting + ConflictTotal(rs)
  {
    if rs == [] {
      assert events + BatchEvents([]) == events;
    } else {
      var init, r := rs[..|rs| - 1], rs[|rs| - 1];
      BatchConflictsCounted(s, events, init);
      assert BatchEvents(rs) == BatchEvents(init) + [BatchWritten(r)];
      Reassociate(events, BatchEvents(init), [BatchWritten(r)]);
      OneMoreCounted(s, events + BatchEvents(init), BatchWritten(r));
    }
  }

  lemma {:induction false} TallyConflicts(s: Counters, rows: seq<RowOutcome>, rs: seq<BatchResult>)
    ensures RecordedFrom(s, RowEvents(rows) + BatchEvents(rs)).quality.conflicting
      == s.quality.conflicting + RowConflicts(rows) + ConflictTotal(rs)
  {
    RowConflictsCounted(s, rows);
    BatchConflictsCounted(s, RowEvents(rows), rs);
  }

  lemma {:induction false} QualityStaysConsistent(c: QualityCounts, e: Event, q: QualityCounts)
    requires QualityConsistent(c) && q == Record(Counters(ZERO.rows, c, ZERO.errors), e).quality
    ensures QualityConsistent(q)
  {
    match e
    case RowDone(r) => RecordQualityConsistent(c, r.outcome, r.violations, true);
    case Evaluated(v) =>
      RecordQualityConsistent(c, InferOutcome(v.outcome, v.violations), v.violations, v.aboutRow);
    case BatchWritten(r) => DetailsCounted(c, r.details);
    case _ =>
  }

  lemma {:induction false} FailuresSplit(c: Counters, e: Event)
    requires c.rows.failed == c.rows.rejected + c.rows.persistenceFailed
    ensures var rows := Record(c, e).rows; rows.failed == rows.rejected + rows.persistenceFailed
  {
  }

  /** Without merged summaries, failures split into rejects and persistence failures, and
      the duplicate counters are the duplicate outcomes. */
  lemma {:induction false} CountersStayConsistent(events: seq<Event>)
    ensures QualityConsistent(Recorded(events).quality)
    ensures var rows := Recorded(events).rows;
      rows.failed == rows.rejected + rows.persistenceFailed
  {
    if events != [] {
      var c, last := Recorded(events[..|events| - 1]), events[|events| - 1];
      CountersStayConsistent(events[..|events| - 1]);
      QualityStaysConsistent(c.quality, last, Record(c, last).quality);
      FailuresSplit(c, last);
    }
  }
}
