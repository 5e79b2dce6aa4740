/** Claiming a source file: any number of workers, each taking find, then reclaim or
    create-or-get, as separate atomic steps against one file collection. */
module FileClaim {
  import opened Contracts

  /** The pair the unique index is on. */
  datatype FileId = FileId(partner: string, hash: string)

  /** `unit` has a unique index where it is present; `otherKeys` are further source unit keys
      kept in the metadata, which have none. */
  datatype FileRecord = FileRecord(status: Status, unit: Option<string>, otherKeys: set<string>)

  datatype Request = Request(file: FileId, unit: Option<string>, otherKeys: set<string>)

  datatype DuplicateCode = FileDuplicate | FetchUnitDuplicate

  /** Where a worker is. `Looking` is the second half of create-or-get, after its insert met a
      unique index. */
  datatype Worker =
    | Idle
    | Finding(request: Request)
    | Reclaiming(request: Request)
    | Inserting(request: Request)
    | Looking(request: Request)
    | Holding(file: FileId)
    | Crashed(file: FileId)
    | Refused(existing: FileId, code: DuplicateCode)
    | LookupFailed

  type Records = map<FileId, FileRecord>

  /** `grants` and `failures` count the claims granted on a file and its turns to FAILED. */
  datatype State = State(records: Records, workers: seq<Worker>,
                         grants: multiset<FileId>, failures: multiset<FileId>)

  datatype Step =
    | Start(w: nat, request: Request)
    | Find(w: nat)
    | Reclaim(w: nat)
    | Insert(w: nat)
    | Look(w: nat, found: FileId)
    | Store(w: nat, status: Status)
    | Fail(w: nat)
    | Finish(w: nat)
    | Crash(w: nat)

  // ---------------------------------------------------------------------------
  // Steps
  // ---------------------------------------------------------------------------

  predicate UnitTaken(records: Records, unit: Option<string>) {
    unit.Some? && exists f :: f in records && records[f].unit == unit
  }

  predicate Matches(r: FileRecord, key: string) { r.unit == Some(key) || key in r.otherKeys }

  /** What the lookup after a failed insert may find: the record of the file itself, or else
      any record that carries the fetch unit key. */
  predicate Finds(records: Records, request: Request, found: FileId) {
    if request.file in records then found == request.file
    else request.unit.Some? && found in records && Matches(records[found], request.unit.value)
  }

  function Code(records: Records, request: Request, found: FileId): (code: DuplicateCode)
    requires found in records
  {
    if request.unit.Some? && records[found].unit == request.unit && found.hash != request.file.hash
    then FetchUnitDuplicate else FileDuplicate
  }

  predicate Enabled(s: State, step: Step) {
    && step.w < |s.workers|
    && var worker := s.workers[step.w];
    match step
    case Start(_, request) =>
      // A derived fetch unit key is never empty.
      (worker.Idle? || worker.Refused? || worker.LookupFailed?) && request.unit != Some("")
    case Find(_) => worker.Finding?
    case Reclaim(_) => worker.Reclaiming?
    case Insert(_) => worker.Inserting?
    case Look(_, found) =>
      worker.Looking? && (Finds(s.records, worker.request, found) || !CanFind(s.records, worker.request))
    case Store(_, status) => worker.Holding? && worker.file in s.records && status != Failed
    case Fail(_) => worker.Holding? && worker.file in s.records
    case Finish(_) =>
      worker.Holding? && worker.file in s.records && s.records[worker.file].status != Processing
    case Crash(_) => worker.Holding?
  }

  predicate CanFind(records: Records, request: Request) {
    || request.file in records
    || (request.unit.Some? && exists f :: f in records && Matches(records[f], request.unit.value))
  }

  function Becomes(s: State, w: nat, worker: Worker): (s': State)
    requires w < |s.workers|
  {
    s.(workers := s.workers[w := worker])
  }

  function Grant(s: State, w: nat, file: FileId, record: FileRecord): (s': State)
    requires w < |s.workers|
  {
    Becomes(s, w, Holding(file)).(records := s.records[file := record],
                                  grants := s.grants + multiset{file})
  }

  function Apply(s: State, step: Step): (s': State)
    requires Enabled(s, step)
  {
    var w := step.w;
    var worker := s.workers[w];
    match step
    case Start(_, request) => Becomes(s, w, Finding(request))
    case Find(_) =>
      var request := worker.request;
      if request.file !in s.records then Becomes(s, w, Inserting(request))
      else if s.records[request.file].status == Failed then Becomes(s, w, Reclaiming(request))
      else Becomes(s, w, Refused(request.file, FileDuplicate))
    case Reclaim(_) =>
      var file := worker.request.file;
      if file in s.records && s.records[file].status == Failed then
        Grant(s, w, file, s.records[file].(status := Processing))
      else Becomes(s, w, Refused(file, FileDuplicate))
    case Insert(_) =>
      var request := worker.request;
      if request.file in s.records || UnitTaken(s.records, request.unit) then
        Becomes(s, w, Looking(request))
      else
        Grant(s, w, request.file, FileRecord(Processing, request.unit, request.otherKeys))
    case Look(_, found) =>
      if CanFind(s.records, worker.request) && found in s.records then
        Becomes(s, w, Refused(found, Code(s.records, worker.request, found)))
      else Becomes(s, w, LookupFailed)
    case Store(_, status) =>
      s.(records := s.records[worker.file := s.records[worker.file].(status := status)])
    case Fail(_) =>
      Becomes(s, w, Idle).(
        records := s.records[worker.file := s.records[worker.file].(status := Failed)],
        failures := s.failures + multiset{worker.file})
    case Finish(_) => Becomes(s, w, Idle)
    case Crash(_) => Becomes(s, w, Crashed(worker.file))
  }

  // ---------------------------------------------------------------------------
  // Invariant
  // ---------------------------------------------------------------------------

  predicate Owns(worker: Worker, f: FileId) {
    worker == Holding(f) || worker == Crashed(f)
  }

  /** The file is claimed: its record exists and is not FAILED. */
  predicate Claimed(records: Records, f: FileId) { f in records && records[f].status != Failed }

  /** No two workers own the same file, and an owned file is claimed. */
  ghost predicate Exclusive(s: State) {
    && (forall v, w, f :: 0 <= v < w < |s.workers| && Owns(s.workers[v], f) ==> !Owns(s.workers[w], f))
    && (forall w, f :: 0 <= w < |s.workers| && Owns(s.workers[w], f) ==> Claimed(s.records, f))
  }

  /** Grants outnumber failures by one on a claimed file, and match them on any other. */
  ghost predicate Balanced(s: State) {
    forall f :: s.grants[f] == s.failures[f] + if Claimed(s.records, f) then 1 else 0
  }

  /** A file being processed has an owner. */
  ghost predicate Owned(s: State) {
    forall f :: f in s.records && s.records[f].status == Processing ==>
      exists w :: 0 <= w < |s.workers| && Owns(s.workers[w], f)
  }

  predicate SameUnit(a: FileRecord, b: FileRecord) { a.unit.Some? && a.unit == b.unit }

  ghost predicate UniqueUnits(records: Records) {
    forall f, g :: f in records && g in records && SameUnit(records[f], records[g]) ==> f == g
  }

  /** A worker that looks up will find what its insert met. */
  ghost predicate LookupsSucceed(s: State) {
    forall w :: 0 <= w < |s.workers| && s.workers[w].Looking? ==>
      CanFind(s.records, s.workers[w].request)
  }

  ghost predicate Inv(s: State) {
    Exclusive(s) && Balanced(s) && Owned(s) && UniqueUnits(s.records) && LookupsSucceed(s)
  }

  lemma {:induction false} OthersUnchanged(s: State, step: Step, w: nat)
    requires Enabled(s, step) && w < |s.workers| && w != step.w
    ensures Apply(s, step).workers[w] == s.workers[w]
  {
  }

  /** A worker becomes an owner only by a grant on a file that was not claimed. */
  lemma {:induction false} OwnershipIsGranted(s: State, step: Step, v: nat, f: FileId)
    requires Enabled(s, step) && v < |s.workers| && Owns(Apply(s, step).workers[v], f)
    ensures Owns(s.workers[v], f) || (v == step.w && !Claimed(s.records, f))
  {
  }

  /** A step makes no worker the owner of a file that another one owns. */
  lemma {:induction false} OwnersStayApart(s: State, step: Step, v: nat, w: nat, f: FileId)
    requires Inv(s) && Enabled(s, step) && v < |s.workers| && w < |s.workers| && v != w
    requires Owns(Apply(s, step).workers[v], f) && w != step.w
    ensures !Owns(Apply(s, step).workers[w], f)
  {
    OthersUnchanged(s, step, w);
    OwnershipIsGranted(s, step, v, f);
  }

  lemma {:induction false} OwnedFilesAreClaimed(s: State, step: Step, w: nat, f: FileId)
    requires Inv(s) && Enabled(s, step) && w < |s.workers| && Owns(Apply(s, step).workers[w], f)
    ensures Claimed(Apply(s, step).records, f)
  {
    var actor := s.workers[step.w];
    if w != step.w {
      assert Owns(s.workers[w], f) && Claimed(s.records, f);
      assert step.Fail? ==> Owns(actor, actor.file);
    }
  }

  lemma {:induction false} BalancedStep(s: State, step: Step)
    requires Inv(s) && Enabled(s, step)
    ensures Balanced(Apply(s, step))
  {
  }

  lemma {:induction false} ProcessingHasOwner(s: State, step: Step, f: FileId) returns (w: nat)
    requires Inv(s) && Enabled(s, step)
    requires var records := Apply(s, step).records; f in records && records[f].status == Processing
    ensures w < |s.workers| && Owns(Apply(s, step).workers[w], f)
  {
    w := step.w;
    if !Owns(Apply(s, step).workers[w], f) {
      assert f in s.records && s.records[f].status == Processing;
      w :| 0 <= w < |s.workers| && Owns(s.workers[w], f);
      OwnerKeepsFile(s, step, w, f);
    }
  }

  /** An owner that acts lets go of a file that is not FAILED only once it has left PROCESSING. */
  lemma {:induction false} OwnersActAlone(s: State, step: Step, f: FileId)
    requires Enabled(s, step) && Owns(s.workers[step.w], f)
    ensures s.workers[step.w] == Holding(f)
    ensures step.Store? || step.Fail? || step.Crash? || step.Finish?
    ensures step.Finish? ==> f in s.records && s.records[f].status != Processing
  {
  }

  lemma {:induction false} OwnStepKeepsFile(s: State, step: Step, f: FileId)
    requires Enabled(s, step) && Owns(s.workers[step.w], f)
    requires var records := Apply(s, step).records; f in records && records[f].status == Processing
    ensures Owns(Apply(s, step).workers[step.w], f)
  {
    OwnersActAlone(s, step, f);
  }

  lemma {:induction false} OwnerKeepsFile(s: State, step: Step, w: nat, f: FileId)
    requires Enabled(s, step) && w < |s.workers| && Owns(s.workers[w], f)
    requires var records := Apply(s, step).records; f in records && records[f].status == Processing
    ensures Owns(Apply(s, step).workers[w], f)
  {
    if w == step.w {
      OwnStepKeepsFile(s, step, f);
    } else {
      OthersUnchanged(s, step, w);
    }
  }

  lemma {:induction false} UniqueUnitsStep(s: State, step: Step)
    requires Inv(s) && Enabled(s, step)
    ensures UniqueUnits(Apply(s, step).records)
  {
  }

  /** Records are never removed, and keep their fetch unit keys. */
  lemma {:induction false} RecordsRemain(s: State, step: Step)
    requires Enabled(s, step)
    ensures var records := Apply(s, step).records;
      forall f :: f in s.records ==>
        && f in records && records[f].unit == s.records[f].unit
        && records[f].otherKeys == s.records[f].otherKeys
  {
  }

  lemma {:induction false} LookupRemains(s: State, step: Step, request: Request)
    requires Enabled(s, step) && CanFind(s.records, request)
    ensures CanFind(Apply(s, step).records, request)
  {
    RecordsRemain(s, step);
    if request.file !in s.records {
      var f :| f in s.records && Matches(s.records[f], request.unit.value);
      assert Matches(Apply(s, step).records[f], request.unit.value);
    }
  }

  lemma {:induction false} LookupsStep(s: State, step: Step)
    requires Inv(s) && Enabled(s, step)
    ensures LookupsSucceed(Apply(s, step))
  {
    var s' := Apply(s, step);
    forall w | 0 <= w < |s.workers| && s'.workers[w].Looking?
      ensures CanFind(s'.records, s'.workers[w].request)
    {
      LookupStep(s, step, w);
    }
  }

  lemma {:induction false} LookingBegins(s: State, step: Step, w: nat)
    requires Enabled(s, step) && w < |s.workers| && Apply(s, step).workers[w].Looking?
    ensures var request := Apply(s, step).workers[w].request;
      || s.workers[w] == Looking(request)
      || (s.workers[w] == Inserting(request)
          && (request.file in s.records || UnitTaken(s.records, request.unit)))
  {
  }

  lemma {:induction false} TakenUnitIsFound(records: Records, request: Request)
    requires UnitTaken(records, request.unit)
    ensures CanFind(records, request)
  {
    var f :| f in records && records[f].unit == request.unit;
    assert Matches(records[f], request.unit.value);
  }

  lemma {:induction false} LookupStep(s: State, step: Step, w: nat)
    requires Inv(s) && Enabled(s, step) && w < |s.workers| && Apply(s, step).workers[w].Looking?
    ensures CanFind(Apply(s, step).records, Apply(s, step).workers[w].request)
  {
    var request := Apply(s, step).workers[w].request;
    LookingBegins(s, step, w);
    if UnitTaken(s.records, request.unit) {
      TakenUnitIsFound(s.records, request);
    }
    LookupRemains(s, step, request);
  }

  /** Every step of every worker keeps the invariant. */
  lemma {:induction false} StepKeepsInv(s: State, step: Step)
    requires Inv(s) && Enabled(s, step)
    ensures Inv(Apply(s, step))
  {
    var s' := Apply(s, step);
    forall v, w, f | 0 <= v < w < |s'.workers| && Owns(s'.workers[v], f)
      ensures !Owns(s'.workers[w], f)
    {
      if Owns(s'.workers[w], f) {
        if w != step.w {
          OwnersStayApart(s, step, v, w, f);
        } else {
          OwnersStayApart(s, step, w, v, f);
        }
      }
    }
    forall w, f | 0 <= w < |s'.workers| && Owns(s'.workers[w], f)
      ensures Claimed(s'.records, f)
    {
      OwnedFilesAreClaimed(s, step, w, f);
    }
    forall f | f in s'.records && s'.records[f].status == Processing
      ensures exists w :: 0 <= w < |s'.workers| && Owns(s'.workers[w], f)
    {
      var w := ProcessingHasOwner(s, step, f);
    }
    BalancedStep(s, step);
    UniqueUnitsStep(s, step);
    LookupsStep(s, step);
  }

  // ---------------------------------------------------------------------------
  // Whole traces
  // ---------------------------------------------------------------------------

  function Start0(workers: nat): (s: State)
    ensures |s.workers| == workers
  {
    State(map[], seq(workers, i => Idle), multiset{}, multiset{})
  }

  /** `trace` leads from `s` to `s'`. */
  ghost predicate Leads(s: State, trace: seq<Step>, s': State)
    decreases |trace|
  {
    if trace == [] then s' == s
    else
      var last := trace[|trace| - 1];
      exists before :: Leads(s, trace[..|trace| - 1], before) && Enabled(before, last)
        && s' == Apply(before, last)
  }

  /** `trace` is possible from the empty collection and ends in `s`. */
  ghost predicate Reaches(workers: nat, trace: seq<Step>, s: State) {
    Leads(Start0(workers), trace, s)
  }

  lemma {:induction false} TracesKeepInv(s: State, trace: seq<Step>, s': State)
    requires Inv(s) && Leads(s, trace, s')
    ensures Inv(s')
    decreases |trace|
  {
    if trace != [] {
      var last := trace[|trace| - 1];
      var before :| Leads(s, trace[..|trace| - 1], before) && Enabled(before, last)
        && s' == Apply(before, last);
      TracesKeepInv(s, trace[..|trace| - 1], before);
      StepKeepsInv(before, last);
    }
  }

  /** In every reachable state, whatever the interleaving: no two workers own a file, exactly
      one more claim was granted than failed on a claimed file, a file in PROCESSING has an
      owner, and no lookup can fail. */
  lemma {:induction false} ClaimsAreExclusive(workers: nat, trace: seq<Step>, s: State)
    requires Reaches(workers, trace, s)
    ensures Inv(s)
  {
    assert Inv(Start0(workers));
    TracesKeepInv(Start0(workers), trace, s);
  }

  /** While a worker owns a file, every other worker that asks for it is refused. */
  lemma {:induction false} OthersAreRefused(s: State, step: Step, owner: nat, f: FileId)
    requires Inv(s) && Enabled(s, step) && owner < |s.workers| && owner != step.w
    requires Owns(s.workers[owner], f)
    requires match s.workers[step.w]
      case Finding(r) => step.Find? && r.file == f
      case Reclaiming(r) => step.Reclaim? && r.file == f
      case Inserting(r) => step.Insert? && r.file == f
      case Looking(r) => step.Look? && r.file == f
      case _ => false
    ensures var worker := Apply(s, step).workers[step.w];
      worker == Refused(f, FileDuplicate) || (step.Insert? && worker.Looking?)
  {
    assert Claimed(s.records, f);
  }

  lemma {:induction false} OtherPasses(s: State, step: Step, s': State, w: nat, f: FileId)
    requires Enabled(s, step) && s' == Apply(s, step) && step.w != w
    requires w < |s.workers| && f in s.records
    ensures |s'.workers| == |s.workers| && s'.workers[w] == s.workers[w] && f in s'.records
  {
    OthersUnchanged(s, step, w);
    RecordsRemain(s, step);
  }

  /** Steps of other workers leave a worker where it is, and a record stays. */
  lemma {:induction false} OthersPass(s: State, trace: seq<Step>, s': State, w: nat, f: FileId)
    requires Leads(s, trace, s') && w < |s.workers| && f in s.records
    requires forall step :: step in trace ==> step.w != w
    ensures |s'.workers| == |s.workers| && s'.workers[w] == s.workers[w] && f in s'.records
    decreases |trace|
  {
    if trace != [] {
      var init, last := trace[..|trace| - 1], trace[|trace| - 1];
      var before :| Leads(s, init, before) && Enabled(before, last) && s' == Apply(before, last);
      OthersPass(s, init, before, w, f);
      assert last in trace;
      OtherPasses(before, last, s', w, f);
    }
  }

  /** A worker that looks up a file with a record is refused as a duplicate of that file. */
  lemma {:induction false} LookRefuses(s: State, w: nat, found: FileId)
    requires w < |s.workers| && s.workers[w].Looking? && s.workers[w].request.file in s.records
    ensures Enabled(s, Look(w, s.workers[w].request.file))
    ensures Enabled(s, Look(w, found)) ==>
      Apply(s, Look(w, found)).workers[w] == Refused(s.workers[w].request.file, FileDuplicate)
  {
  }

  /** A claimant that met a file another worker owns ends refused, whatever the others do until
      its next step, even if the owner fails meanwhile: it is refused at once, or its lookup can
      still be taken and refuses it. */
  lemma {:induction false} OwnedFilesEndRefused(s: State, step: Step, owner: nat, f: FileId,
                                                trace: seq<Step>, s': State, found: FileId)
    requires Inv(s) && Enabled(s, step) && owner < |s.workers| && owner != step.w
    requires Owns(s.workers[owner], f)
    requires match s.workers[step.w]
      case Finding(r) => step.Find? && r.file == f
      case Reclaiming(r) => step.Reclaim? && r.file == f
      case Inserting(r) => step.Insert? && r.file == f
      case Looking(r) => step.Look? && r.file == f
      case _ => false
    requires Leads(Apply(s, step), trace, s') && forall other :: other in trace ==> other.w != step.w
    ensures step.w < |s'.workers|
    ensures var worker := s'.workers[step.w];
      || worker == Refused(f, FileDuplicate)
      || (worker.Looking? && worker.request.file == f && Enabled(s', Look(step.w, f))
          && (Enabled(s', Look(step.w, found)) ==>
                Apply(s', Look(step.w, found)).workers[step.w] == Refused(f, FileDuplicate)))
  {
    OthersAreRefused(s, step, owner, f);
    assert Claimed(s.records, f);
    RecordsRemain(s, step);
    OthersPass(Apply(s, step), trace, s', step.w, f);
    if s'.workers[step.w].Looking? {
      LookRefuses(s', step.w, found);
    }
  }

  /** The file has no record, `g` holds its fetch unit key, and no other record lists the key. */
  ghost predicate OnlyHolder(records: Records, request: Request, g: FileId) {
    && request.file !in records && request.unit.Some?
    && g in records && records[g].unit == request.unit
    && forall f :: f in records && Matches(records[f], request.unit.value) ==> f == g
  }

  /** A refusal names the fetch unit only if the file has no record and the one record with its
      fetch unit key is of other contents; and it does so if no further record lists the key. */
  lemma {:induction false} RefusalCode(s: State, step: Step)
    requires Inv(s) && Enabled(s, step) && step.Look?
    ensures var request, worker := s.workers[step.w].request, Apply(s, step).workers[step.w];
      && worker.Refused?
      && (request.file in s.records ==> worker == Refused(request.file, FileDuplicate))
      && (worker.code == FetchUnitDuplicate ==>
            request.file !in s.records && worker.existing.hash != request.file.hash
            && forall g :: g in s.records && request.unit.Some? && s.records[g].unit == request.unit
                 ==> g == worker.existing)
    ensures var request, worker := s.workers[step.w].request, Apply(s, step).workers[step.w];
      forall g :: OnlyHolder(s.records, request, g) ==>
        worker == Refused(g, if g.hash == request.file.hash then FileDuplicate else FetchUnitDuplicate)
  {
    var request, worker := s.workers[step.w].request, Apply(s, step).workers[step.w];
    if worker.code == FetchUnitDuplicate {
      forall g | g in s.records && s.records[g].unit == request.unit ensures g == worker.existing {
        assert SameUnit(s.records[g], s.records[worker.existing]);
      }
    }
  }

  /** Exclusion needs the status of a claimed file to be written by its owner alone: once
      another run marks the file FAILED, a third one can claim it beside the first. */
  lemma {:induction false} ForeignFailureBreaksExclusion(s: State, owner: nat, w: nat, f: FileId)
    requires Inv(s) && owner < |s.workers| && w < |s.workers| && owner != w
    requires Owns(s.workers[owner], f) && s.workers[w].Idle? && Claimed(s.records, f)
    ensures var request := Request(f, None, {});
      var s0 := s.(records := s.records[f := s.records[f].(status := Failed)]);
      && Enabled(s0, Start(w, request))
      && var s1 := Apply(s0, Start(w, request));
      && Enabled(s1, Find(w))
      && var s2 := Apply(s1, Find(w));
      && Enabled(s2, Reclaim(w))
      && var s3 := Apply(s2, Reclaim(w));
      s3.workers[owner] == s.workers[owner] && s3.workers[w] == Holding(f)
  {
  }
}
