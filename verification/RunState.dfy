/** Mutable state of one ingestion run. Related counters are grouped into one record field. */
module RunState {
  import opened Quality
  import opened Contracts
  import opened Accounting
  import StageClock

  class IngestionRunState {
    var rows: RowCounts
    var quality: QualityCounts
    var errorCounts: ErrorCounts
    var decision: Decision
    var action: Action
    var errors: seq<RunError>
    var errorSamplesDropped: nat
    var ingestionKeys: seq<string>
    var rowErrorLogs: nat
    var clock: StageClock.Clock

    /** The disposition matches the counts, and the error sample is bounded. */
    ghost predicate Valid()
      reads this
    {
      && Disposition(decision, action) == FromOutcomes(quality.outcomes)
      && |errors| <= ERROR_SAMPLE_LIMIT
      && |errors| + errorSamplesDropped == errorCounts.count
      && (errorSamplesDropped > 0 ==> |errors| == ERROR_SAMPLE_LIMIT)
      && rowErrorLogs <= ERROR_SAMPLE_LIMIT
    }

    constructor (now: int)
      ensures Valid() && Counters(rows, quality, errorCounts) == ZERO && ingestionKeys == []
      ensures clock == StageClock.Started(now)
    {
      rows, quality, errorCounts := ZERO.rows, ZERO.quality, ZERO.errors;
      decision, action := Pass, Continue;
      errors, errorSamplesDropped, ingestionKeys, rowErrorLogs := [], 0, [], 0;
      clock := StageClock.Started(now);
    }

    method RecordRow() returns (ordinal: nat)
      requires Valid()
      modifies this`rows
      ensures Valid() && rows == old(rows).(total := old(rows.total) + 1)
      ensures ordinal == rows.total
    {
      rows := rows.(total := rows.total + 1);
      ordinal := rows.total;
    }

    method AddError(e: RunError)
      requires Valid()
      modifies this`errorCounts, this`errors, this`errorSamplesDropped
      ensures Valid() && errorCounts == RecordError(old(errorCounts), e)
      ensures old(errors) <= errors
    {
      errorCounts := errorCounts.(count := errorCounts.count + 1);
      if e.field != "" {
        errorCounts := errorCounts.(fields := errorCounts.fields + {e.field});
      }
      if |errors| < ERROR_SAMPLE_LIMIT {
        errors := errors + [e];
      } else {
        errorSamplesDropped := errorSamplesDropped + 1;
      }
    }

    method AddViolations(violations: seq<Violation>)
      requires Valid()
      modifies this`errorCounts, this`errors, this`errorSamplesDropped
      ensures Valid() && errorCounts == RecordViolations(old(errorCounts), violations)
    {
      for i := 0 to |violations|
        invariant Valid()
        invariant errorCounts == RecordViolations(old(errorCounts), violations[..i])
      {
        AddError(ViolationError(violations[i]));
        assert violations[..i + 1] == violations[..i] + [violations[i]];
      }
      assert violations[..|violations|] == violations;
    }

    method CountCodes(violations: seq<Violation>)
      modifies this`quality
      ensures quality == old(quality).(rules := old(quality.rules) + Codes(violations))
    {
      for i := 0 to |violations|
        invariant quality == old(quality).(rules := old(quality.rules) + Codes(violations[..i]))
      {
        quality := quality.(rules := quality.rules + multiset{violations[i].code});
        CodesSnoc(violations, i);
      }
      assert violations[..|violations|] == violations;
    }

    method RecordQuality(o: Outcome, violations: seq<Violation>, aboutRow: bool)
      requires Valid()
      modifies this`quality, this`decision, this`action
      ensures Valid()
      ensures quality == Accounting.RecordQuality(old(quality), o, violations, aboutRow)
    {
      AdvanceIsRecount(quality.outcomes, o);
      quality := quality.(outcomes := quality.outcomes + multiset{o});
      if o.Valid? {
        return;
      }
      CountCodes(violations);
      if o.ConflictingDuplicate? {
        quality := quality.(conflicting := quality.conflicting + 1);
      } else if o.EquivalentDuplicate? {
        quality := quality.(equivalent := quality.equivalent + 1);
      } else if o.Warning? && aboutRow {
        quality := quality.(warning := quality.warning + 1);
      }
      AdvanceDisposition(o);
    }

    /** Advance the disposition without recounting. */
    method AdvanceDisposition(o: Outcome)
      modifies this`decision, this`action
      ensures Disposition(decision, action) == Advance(Disposition(old(decision), old(action)), o)
    {
      if o.BatchFatal? {
        decision, action := Fail, FailRun;
        return;
      }
      if decision.Fail? {
        return;
      }
      if o.ConflictingDuplicate? {
        decision, action := Review, HoldForReview;
        return;
      }
      if o.Reject? || o.Warning? {
        decision := Review;
      }
    }

    method RecordInvalidRow(violations: seq<Violation>)
      requires Valid()
      modifies this`rows, this`errorCounts, this`errors, this`errorSamplesDropped
      ensures Valid() && errorCounts == RecordViolations(old(errorCounts), violations)
      ensures rows == old(rows).(failed := old(rows.failed) + 1, rejected := old(rows.rejected) + 1)
    {
      rows := rows.(failed := rows.failed + 1, rejected := rows.rejected + 1);
      AddViolations(violations);
    }

    method RecordValidRow(ingestionKey: string)
      modifies this`ingestionKeys
      ensures ingestionKeys == old(ingestionKeys) + [ingestionKey]
    {
      ingestionKeys := ingestionKeys + [ingestionKey];
    }

    method CountRow(r: RowOutcome)
      requires Valid()
      modifies this`rows, this`errorCounts, this`errors, this`errorSamplesDropped, this`ingestionKeys
      ensures Valid()
      ensures rows == RecordRowCounts(old(rows), r)
      ensures errorCounts == RecordRowErrors(old(errorCounts), r)
      ensures ingestionKeys
        == old(ingestionKeys) + if IsValid(r.outcome) then [r.row.key.ingestionKey] else []
    {
      if IsValid(r.outcome) {
        RecordValidRow(r.row.key.ingestionKey);
        if r.outcome.Warning? {
          AddViolations(r.violations);
        }
      } else {
        RecordInvalidRow(r.violations);
      }
    }

    method RecordRowOutcome(r: RowOutcome)
      requires Valid()
      modifies this`rows, this`quality, this`errorCounts, this`decision, this`action, this`errors,
        this`errorSamplesDropped, this`ingestionKeys
      ensures Valid()
      ensures rows == RecordRowCounts(old(rows), r)
      ensures quality == Accounting.RecordQuality(old(quality), r.outcome, r.violations, true)
      ensures errorCounts == RecordRowErrors(old(errorCounts), r)
      ensures ingestionKeys
        == old(ingestionKeys) + if IsValid(r.outcome) then [r.row.key.ingestionKey] else []
    {
      CountRow(r);
      RecordQuality(r.outcome, r.violations, true);
    }

    method RecordQualityEvaluation(e: Evaluation)
      requires Valid()
      modifies this`quality, this`decision, this`action
      ensures Valid() && quality == RecordEvaluation(old(quality), e)
    {
      RecordQuality(InferOutcome(e.outcome, e.violations), e.violations, e.aboutRow);
    }

    method RecordBatchErrors(r: BatchResult)
      requires Valid()
      modifies this`errorCounts, this`errors, this`errorSamplesDropped
      ensures Valid() && errorCounts == Accounting.RecordBatchErrors(old(errorCounts), r)
    {
      if r.duplicates > 0 {
        AddError(DUPLICATES_SKIPPED);
      }
      if r.failed > 0 {
        AddError(ROWS_FAILED);
      }
    }

    method CountBatchRows(r: BatchResult)
      modifies this`rows
      ensures rows == RecordBatchRows(old(rows), r)
    {
      rows := rows.(success := rows.success + r.inserted);
      rows := rows.(duplicate := rows.duplicate + r.duplicates);
      rows := rows.(failed := rows.failed + r.failed);
      rows := rows.(persistenceFailed := rows.persistenceFailed + r.failed);
    }

    method RecordBatchResult(r: BatchResult)
      requires Valid()
      modifies this`rows, this`quality, this`errorCounts, this`decision, this`action, this`errors,
        this`errorSamplesDropped
      ensures Valid()
      ensures rows == RecordBatchRows(old(rows), r)
      ensures quality == Accounting.RecordDetails(old(quality), r.details)
      ensures errorCounts == Accounting.RecordBatchErrors(old(errorCounts), r)
    {
      CountBatchRows(r);
      RecordDetails(r.details);
      RecordBatchErrors(r);
    }

    method RecordDetails(details: seq<DuplicateDetail>)
      requires Valid()
      modifies this`quality, this`decision, this`action
      ensures Valid() && quality == Accounting.RecordDetails(old(quality), details)
    {
      for i := 0 to |details|
        invariant Valid() && quality == Accounting.RecordDetails(old(quality), details[..i])
      {
        RecordQualityEvaluation(DetailEvaluation(details[i]));
        assert details[..i + 1][..i] == details[..i];
      }
      assert details[..|details|] == details;
    }

    method RecordPersistenceFailure()
      requires Valid()
      modifies this`rows
      ensures Valid() && rows == old(rows).(failed := old(rows.failed) + 1,
                                            persistenceFailed := old(rows.persistenceFailed) + 1)
    {
      rows := rows.(failed := rows.failed + 1, persistenceFailed := rows.persistenceFailed + 1);
    }

    method RecordQuarantined(count: nat)
      requires Valid()
      modifies this`rows
      ensures Valid() && rows == old(rows).(quarantined := old(rows.quarantined) + count)
    {
      rows := rows.(quarantined := rows.quarantined + count);
    }

    /** At most `ERROR_SAMPLE_LIMIT` row failures are logged in a run. */
    method ShouldLogRowError() returns (allowed: bool)
      requires Valid()
      modifies this`rowErrorLogs
      ensures Valid() && allowed == (old(rowErrorLogs) < ERROR_SAMPLE_LIMIT)
      ensures rowErrorLogs == old(rowErrorLogs) + if allowed then 1 else 0
    {
      if rowErrorLogs >= ERROR_SAMPLE_LIMIT {
        return false;
      }
      rowErrorLogs := rowErrorLogs + 1;
      return true;
    }

    predicate IsPartial()
      reads this
    {
      Partial(rows)
    }

    function Counted(): (c: Counters)
      reads this
    {
      Counters(rows, quality, errorCounts)
    }

    /** One event, recorded by the method it belongs to. */
    method RecordEvent(e: Event)
      requires Valid()
      modifies this
      ensures Valid() && Counted() == Record(old(Counted()), e)
    {
      match e {
        case RowRead => var ordinal := RecordRow();
        case RowDone(r) => RecordRowOutcome(r);
        case Evaluated(v) => RecordQualityEvaluation(v);
        case BatchWritten(r) => RecordBatchResult(r);
        case WriteFailed => RecordPersistenceFailure();
        case QuarantineWritten(n) => RecordQuarantined(n);
        case ErrorAdded(err) => AddError(err);
      }
    }

    /** A fresh state after any events: its counters are the recorded ones, and its decision and
        action those recounted from them, so neither depends on the order of the events. */
    method RecordAll(events: seq<Event>)
      requires Valid() && Counted() == ZERO
      modifies this
      ensures Valid() && Counted() == Recorded(events)
      ensures Disposition(decision, action) == DispositionAfter(events)
    {
      for i := 0 to |events|
        invariant Valid() && Counted() == Recorded(events[..i])
      {
        RecordEvent(events[i]);
        assert events[..i + 1][..i] == events[..i];
      }
      assert events[..|events|] == events;
      IncrementalDisposition(events);
    }

    method FinishStage(now: int)
      modifies this`clock
      ensures clock == StageClock.Apply(old(clock), StageClock.Finish(now))
    {
      if clock.stage.None? || clock.startedAt.None? {
        return;
      }
      var stage, spent := clock.stage.value, now - clock.startedAt.value;
      var total := StageClock.Get(clock.durations, stage) + spent;
      clock := clock.(durations := clock.durations[stage := total]);
      clock := clock.(startedAt := None);
    }

    method BeginStage(stage: string, closeAt: int, openAt: int)
      modifies this`clock
      ensures clock == StageClock.Apply(old(clock), StageClock.Begin(stage, closeAt, openAt))
    {
      FinishStage(closeAt);
      clock := clock.(stage := Some(stage));
      clock := clock.(startedAt := Some(openAt));
    }

    method FinishRun(closeAt: int, endAt: int)
      modifies this`clock
      ensures clock == StageClock.Apply(old(clock), StageClock.FinishRun(closeAt, endAt))
    {
      FinishStage(closeAt);
      var elapsed := endAt - clock.runStartedAt;
      clock := clock.(duration := Some(if elapsed < 0 then 0 else elapsed));
    }
  }

  lemma {:induction false} CodesSnoc(violations: seq<Violation>, i: nat)
    requires i < |violations|
    ensures Codes(violations[..i + 1]) == Codes(violations[..i]) + multiset{violations[i].code}
  {
    var before := seq(i, j requires 0 <= j < i => violations[..i][j].code);
    var after := seq(i + 1, j requires 0 <= j < i + 1 => violations[..i + 1][j].code);
    assert after == before + [violations[i].code];
  }
}
