/** One ingestion run from claim to terminal status, with a failure possible at every step. */
module IngestionRun {
  import opened Contracts
  import opened Accounting

  datatype RunOutcome = Ingested | Partial | FileDuplicate | FetchUnitReplay | WaitingReview | RunFailed

  /** Where `fail` is called from. */
  datatype Site = AtGate | AtIngestionKey | AtHandler

  /** The steps that can raise. Best-effort writes and logging that are caught where they
      happen are not listed. */
  datatype Step =
    | EmitClaiming | HashFile | DeriveUnitKey | Claim | EmitClaimed
    | EmitDuplicate | LogDuplicate | LogStarted
    | EmitConfiguring | Prepare | EmitApproval | StorePending
    | EvaluateGate | EmitGateFailed | ProcessRows | EmitKeyFailed
    | EmitFinalizing | StoreStats | StoreStatus | LogCompleted
    | RecordHealth | LogPerformance
    | EmitFailed | LogFailed(at: Site) | StoreFailedStats(at: Site) | StoreFailedStatus(at: Site)

  datatype ClaimAnswer = Granted | Duplicate(ofFetchUnit: bool)

  datatype Preparation = Prepared | ApprovalRequired | ConfigInvalid

  /** Everything a run does not decide itself. A write in `faults` raises; if it is also in
      `applied`, the repository stored it before it raised. */
  datatype Env = Env(
    faults: set<Step>, applied: set<Step>, claim: ClaimAnswer, preparation: Preparation,
    gateFails: bool, rows: RowCounts, errorFields: set<string>, healthCheck: bool)

  /** The writes of a call to `fail` reach the repository. */
  predicate FailureIsStored(env: Env, at: Site) {
    && StoreFailedStats(at) !in env.faults
    && (StoreFailedStatus(at) !in env.faults || StoreFailedStatus(at) in env.applied)
  }

  /** The row phase found neither identity field in any row. */
  predicate MissesIngestionKey(rows: RowCounts, errorFields: set<string>) {
    && rows.total > 0 && rows.success == 0 && rows.failed >= rows.total
    && "id" in errorFields && "trace" in errorFields
  }

  predicate ClaimReturns(env: Env) {
    env.faults !! {EmitClaiming, HashFile, DeriveUnitKey, Claim, EmitClaimed}
  }

  predicate MappingRaises(env: Env) {
    || !(env.faults !! {EmitConfiguring, Prepare}) || env.preparation.ConfigInvalid?
    || (env.preparation.ApprovalRequired? && !(env.faults !! {EmitApproval, StorePending}))
  }

  predicate CompletionRaises(env: Env) {
    || !(env.faults !! {EmitFinalizing, StoreStats, StoreStatus, LogCompleted, LogPerformance})
    || (env.healthCheck && RecordHealth in env.faults)
  }

  /** The gate, the row phase or the completion raises. */
  predicate WorkRaises(env: Env) {
    || EvaluateGate in env.faults
    || if env.gateFails then !(env.faults !! {EmitGateFailed, LogFailed(AtGate)})
       else
         || ProcessRows in env.faults
         || if MissesIngestionKey(env.rows, env.errorFields) then
              !(env.faults !! {EmitKeyFailed, LogFailed(AtIngestionKey)})
            else CompletionRaises(env)
  }

  /** The run gets as far as a raising step before it returns. */
  predicate RunRaises(env: Env) {
    || !ClaimReturns(env)
    || if env.claim.Duplicate? then !(env.faults !! {EmitDuplicate, LogDuplicate})
       else
         || LogStarted in env.faults || MappingRaises(env)
         || (env.preparation.Prepared? && WorkRaises(env))
  }

  /** How the try block of a run ends. */
  datatype Attempt = Returned(outcome: RunOutcome) | Raised

  class Run {
    const env: Env
    /** Status updates that reached the repository, and the status of the record this run
        holds in memory. */
    var writes: seq<Status>
    var memory: Status
    /** The run knows the file record, and so does its failure handler. */
    var holdsRecord: bool

    constructor (env: Env)
      ensures this.env == env && writes == [] && !holdsRecord && memory == Processing
    {
      this.env, writes, memory, holdsRecord := env, [], Processing, false;
    }

    /** Status of the file record, given that a granted claim set it to PROCESSING. */
    function Stored(): (s: Status)
      reads this
    {
      if writes == [] then Processing else writes[|writes| - 1]
    }

    predicate Raises(step: Step) { step in env.faults }

    method UpdateStatus(step: Step, s: Status) returns (raised: bool)
      modifies this`writes
      ensures raised == Raises(step)
      ensures writes == if raised && step !in env.applied then old(writes) else old(writes) + [s]
    {
      raised := Raises(step);
      if !raised || step in env.applied {
        writes := writes + [s];
      }
    }

    method Complete() returns (raised: bool)
      modifies this`writes, this`memory
      ensures raised <==> Raises(StoreStats) || Raises(StoreStatus) || Raises(LogCompleted)
      ensures !raised ==>
        var status := if Accounting.Partial(env.rows) then PartlyDone else Completed;
        writes == old(writes) + [status] && memory == status
      ensures raised ==> memory in {old(memory), Completed, PartlyDone}
      ensures raised ==> writes in {old(writes), old(writes) + [Completed], old(writes) + [PartlyDone]}
    {
      var status := if Accounting.Partial(env.rows) then PartlyDone else Completed;
      if Raises(StoreStats) {
        return true;
      }
      raised := UpdateStatus(StoreStatus, status);
      if raised {
        return;
      }
      memory := status;
      raised := Raises(LogCompleted);
    }

    /** Best effort: a raising write is swallowed, raising logging is not. */
    method Fail(at: Site) returns (raised: bool)
      modifies this`writes, this`memory
      ensures raised == Raises(LogFailed(at))
      ensures writes ==
        if !raised && holdsRecord && FailureIsStored(env, at) then old(writes) + [Failed]
        else old(writes)
      ensures memory ==
        if !raised && holdsRecord && !Raises(StoreFailedStats(at)) && !Raises(StoreFailedStatus(at))
        then Failed else old(memory)
    {
      raised := Raises(LogFailed(at));
      if raised {
        return;
      }
      if holdsRecord && !Raises(StoreFailedStats(at)) {
        var lost := UpdateStatus(StoreFailedStatus(at), Failed);
        if !lost {
          memory := Failed;
        }
      }
    }

    /** `None` when it raised. */
    method ClaimSourceFile() returns (claim: Option<ClaimAnswer>)
      ensures claim.Some? <==>
        !Raises(EmitClaiming) && !Raises(HashFile) && !Raises(DeriveUnitKey) && !Raises(Claim)
        && !Raises(EmitClaimed)
      ensures claim.Some? ==> claim.value == env.claim
    {
      if Raises(EmitClaiming) || Raises(HashFile) || Raises(DeriveUnitKey) || Raises(Claim) {
        return None;
      }
      if Raises(EmitClaimed) {
        return None;
      }
      return Some(env.claim);
    }

    method PrepareMapping() returns (raised: bool, waiting: bool)
      modifies this`writes, this`memory
      ensures !raised && waiting ==> writes == old(writes) + [Pending] && memory == Pending
      ensures !raised && !waiting ==> writes == old(writes) && memory == old(memory)
      ensures raised ==> memory == old(memory)
      ensures raised ==> writes == old(writes) || writes == old(writes) + [Pending]
      ensures raised <==> MappingRaises(env)
      ensures !raised ==> (waiting <==> !env.preparation.Prepared?)
    {
      waiting := false;
      if Raises(EmitConfiguring) || Raises(Prepare) || env.preparation.ConfigInvalid? {
        return true, false;
      }
      if env.preparation.Prepared? {
        return false, false;
      }
      if Raises(EmitApproval) {
        return true, false;
      }
      raised := UpdateStatus(StorePending, Pending);
      if raised {
        return;
      }
      memory := Pending;
      waiting := true;
    }

    method FinalizeSuccess() returns (raised: bool)
      modifies this`writes, this`memory
      ensures raised <==> CompletionRaises(env)
      ensures !raised ==>
        var status := if Accounting.Partial(env.rows) then PartlyDone else Completed;
        writes == old(writes) + [status] && memory == status
      ensures raised ==> memory in {old(memory), Completed, PartlyDone}
      ensures raised ==> writes in {old(writes), old(writes) + [Completed], old(writes) + [PartlyDone]}
    {
      if Raises(EmitFinalizing) {
        return true;
      }
      raised := Complete();
      if raised {
        return;
      }
      raised := (env.healthCheck && Raises(RecordHealth)) || Raises(LogPerformance);
    }

    /** The try block. */
    method Try() returns (attempt: Attempt)
      requires writes == [] && memory == Processing && !holdsRecord
      modifies this
      ensures holdsRecord <==> ClaimReturns(env)
      ensures env.claim.Duplicate? ==> writes == [] && memory == Processing
      ensures attempt == Raised ==> Failed !in writes && memory != Failed
      ensures attempt == Raised <==> RunRaises(env)
      ensures !holdsRecord ==> writes == []
      ensures attempt.Returned? ==> holdsRecord && Agrees(attempt.outcome)
      ensures memory == Failed ==> Stored() == Failed
    {
      var claim := ClaimSourceFile();
      if claim.None? {
        return Raised;
      }
      holdsRecord := true;
      if claim.value.Duplicate? {
        if Raises(EmitDuplicate) || Raises(LogDuplicate) {
          return Raised;
        }
        return Returned(if claim.value.ofFetchUnit then FetchUnitReplay else FileDuplicate);
      }
      if Raises(LogStarted) {
        return Raised;
      }
      var raised, waiting := PrepareMapping();
      if raised {
        return Raised;
      }
      if waiting {
        return Returned(WaitingReview);
      }
      attempt := GateAndRows();
    }

    method GateAndRows() returns (attempt: Attempt)
      requires writes == [] && memory == Processing && holdsRecord && env.claim.Granted?
      modifies this`writes, this`memory
      ensures attempt == Raised <==> WorkRaises(env)
      ensures attempt == Raised ==> Failed !in writes && memory != Failed
      ensures attempt.Returned? ==> Agrees(attempt.outcome)
      ensures memory == Failed ==> Stored() == Failed
    {
      var raised;
      if Raises(EvaluateGate) {
        return Raised;
      }
      if env.gateFails {
        if Raises(EmitGateFailed) {
          return Raised;
        }
        raised := Fail(AtGate);
        return if raised then Raised else Returned(RunFailed);
      }
      if Raises(ProcessRows) {
        return Raised;
      }
      if MissesIngestionKey(env.rows, env.errorFields) {
        if Raises(EmitKeyFailed) {
          return Raised;
        }
        raised := Fail(AtIngestionKey);
        return if raised then Raised else Returned(RunFailed);
      }
      raised := FinalizeSuccess();
      if raised {
        return Raised;
      }
      return Returned(if Accounting.Partial(env.rows) then Partial else Ingested);
    }

    /** The outcome a run reports, and the status it stored and holds. */
    predicate Agrees(outcome: RunOutcome)
      reads this
    {
      match outcome
      case Ingested =>
        env.claim.Granted? && writes == [Completed] && memory == Completed && !Accounting.Partial(env.rows)
      case Partial =>
        env.claim.Granted? && writes == [PartlyDone] && memory == PartlyDone && Accounting.Partial(env.rows)
      case WaitingReview => env.claim.Granted? && writes == [Pending] && memory == Pending
      case FileDuplicate => env.claim == Duplicate(false) && writes == []
      case FetchUnitReplay => env.claim == Duplicate(true) && writes == []
      case RunFailed =>
        var at := if env.gateFails then AtGate else AtIngestionKey;
        && env.claim.Granted? && !Raises(LogFailed(at))
        && writes == if FailureIsStored(env, at) then [Failed] else []
    }

    /** Process a file. `None` when an exception escapes the failure handler. */
    method ProcessFile() returns (result: Option<RunOutcome>, ghost handled: bool)
      requires writes == [] && memory == Processing && !holdsRecord
      modifies this
      ensures handled <==> RunRaises(env) && !Raises(EmitFailed)
      ensures result.None? <==> RunRaises(env) && (Raises(EmitFailed) || Raises(LogFailed(AtHandler)))
      ensures result.Some? && !handled ==> holdsRecord && Agrees(result.value)
      // The handler ran to its end: it reports FAILED, and stored it if it could.
      ensures result.Some? && handled ==>
        && result.value == RunFailed
        && (Stored() == Failed <==> holdsRecord && FailureIsStored(env, AtHandler))
      // A handler that does not know the record writes nothing, whatever it reports.
      ensures holdsRecord <==> ClaimReturns(env)
      ensures !holdsRecord ==> writes == []
      ensures memory == Failed ==> Stored() == Failed
      // A duplicate claim leaves the record alone, unless reporting the duplicate raises and
      // the handler, which knows the record of another run, marks it FAILED.
      ensures env.claim.Duplicate? ==>
        (writes == if MarksForeignRecord(env) then [Failed] else [])
    {
      handled := false;
      var attempt := Try();
      if attempt.Returned? {
        return Some(attempt.outcome), handled;
      }
      if Raises(EmitFailed) {
        return None, handled;
      }
      handled := true;
      var raised := Fail(AtHandler);
      return if raised then None else Some(RunFailed), handled;
    }
  }

  /** Reporting a duplicate claim raises, and the failure handler gets through. */
  predicate MarksForeignRecord(env: Env) {
    && ClaimReturns(env)
    && (EmitDuplicate in env.faults || LogDuplicate in env.faults)
    && EmitFailed !in env.faults && LogFailed(AtHandler) !in env.faults
    && FailureIsStored(env, AtHandler)
  }

  /** "A duplicate claim changes no status" fails when only the logger does. */
  method DuplicateMarkedFailed() returns (run: Run)
    ensures fresh(run) && run.env.claim.Duplicate? && run.env.faults == {LogDuplicate}
    ensures run.writes == [Failed]
  {
    var env := Env({LogDuplicate}, {}, Duplicate(false), Prepared, false,
                   RowCounts(0, 0, 0, 0, 0, 0, 0), {}, false);
    run := new Run(env);
    var result, handled := run.ProcessFile();
  }

  /** "A run that reports FAILED stored FAILED" fails when a step between the claim and its return
      does: the record stays in PROCESSING, and nobody owns it. */
  method FailedLeftInProcessing() returns (run: Run, result: Option<RunOutcome>)
    ensures fresh(run) && run.env.claim.Granted? && run.env.faults == {EmitClaimed}
    ensures result == Some(RunFailed) && run.writes == [] && run.Stored() == Processing
  {
    var env := Env({EmitClaimed}, {}, Granted, Prepared, false, RowCounts(0, 0, 0, 0, 0, 0, 0), {},
                   false);
    run := new Run(env);
    ghost var handled;
    result, handled := run.ProcessFile();
  }
}
