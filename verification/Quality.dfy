/** The quality language of ingestion: outcomes, rule codes, and the disposition that a
    source unit gets from them. */
module Quality {

  datatype RuleCode =
    | RequiredSchemaPath | MissingRequiredSourceColumn | SchemaConfigDrift
    | SourceStructureUnreadable | ConfigValidation | MissingRequiredField | MalformedRow
    | InvalidAmount | NegativeAmount | InvalidTimestamp | InvalidStatus
    | EquivalentDuplicateRule | ConflictingDuplicateRule

  datatype Severity = Info | WarningSeverity | Error | Fatal

  datatype Outcome = Valid | Warning | Reject | EquivalentDuplicate | ConflictingDuplicate | BatchFatal

  datatype Decision = Pass | Review | Fail

  datatype Action = Continue | HoldForReview | FailRun

  /** `field` is empty when the violation names none. */
  datatype Violation = Violation(code: RuleCode, severity: Severity, outcome: Outcome, field: string)

  predicate IsValid(o: Outcome) {
    o in {Valid, Warning, EquivalentDuplicate}
  }

  /** The outcome an evaluation settles on once its violations are known. */
  function InferOutcome(stated: Outcome, violations: seq<Violation>): (o: Outcome) {
    if violations == [] then stated
    else if stated.BatchFatal? || exists v :: v in violations && (v.outcome.BatchFatal? || v.severity.Fatal?) then BatchFatal
    else if stated.ConflictingDuplicate? || exists v :: v in violations && v.outcome.ConflictingDuplicate? then ConflictingDuplicate
    else if stated.Reject? || exists v :: v in violations && v.outcome.Reject? then Reject
    else if stated.Warning? || exists v :: v in violations && (v.outcome.Warning? || v.severity.WarningSeverity?) then Warning
    else if stated.EquivalentDuplicate? || forall v :: v in violations ==> v.outcome.EquivalentDuplicate? then EquivalentDuplicate
    else Reject
  }

  function Codes(violations: seq<Violation>): (codes: multiset<RuleCode>) {
    multiset(seq(|violations|, i requires 0 <= i < |violations| => violations[i].code))
  }

  // ---------------------------------------------------------------------------
  // Disposition recomputed from cumulative counts
  // ---------------------------------------------------------------------------

  function DecisionFromCounts(rules: multiset<RuleCode>, outcomes: multiset<Outcome>): (d: Decision) {
    if outcomes[BatchFatal] > 0 then Fail
    else if rules[ConflictingDuplicateRule] > 0 || outcomes[Reject] > 0 || outcomes[Warning] > 0 || outcomes[ConflictingDuplicate] > 0 then Review
    else Pass
  }

  function ActionFromCounts(rules: multiset<RuleCode>, outcomes: multiset<Outcome>): (a: Action) {
    if DecisionFromCounts(rules, outcomes).Fail? then FailRun
    else if rules[ConflictingDuplicateRule] > 0 || outcomes[ConflictingDuplicate] > 0 then HoldForReview
    else Continue
  }

  // ---------------------------------------------------------------------------
  // Disposition advanced one outcome at a time
  // ---------------------------------------------------------------------------

  datatype Disposition = Disposition(decision: Decision, action: Action)

  const START := Disposition(Pass, Continue)

  function Advance(d: Disposition, o: Outcome): (d': Disposition) {
    match o
    case BatchFatal => Disposition(Fail, FailRun)
    case ConflictingDuplicate => if d.decision.Fail? then d else Disposition(Review, HoldForReview)
    case Reject | Warning => if d.decision.Fail? then d else d.(decision := Review)
    case Valid | EquivalentDuplicate => d
  }

  /** What the outcome counts alone say. */
  function FromOutcomes(outcomes: multiset<Outcome>): (d: Disposition) {
    Disposition(DecisionFromCounts(multiset{}, outcomes), ActionFromCounts(multiset{}, outcomes))
  }

  /** Advancing by one outcome is counting that outcome and recomputing. */
  lemma {:induction false} AdvanceIsRecount(outcomes: multiset<Outcome>, o: Outcome)
    ensures Advance(FromOutcomes(outcomes), o) == FromOutcomes(outcomes + multiset{o})
  {
  }

  /** The counters a summary is built from also hold rule codes. The advanced disposition
      is the summarised one exactly when a conflicting-duplicate rule was never counted
      without an outcome that already forces the same disposition. */
  lemma {:induction false} SummaryAgrees(rules: multiset<RuleCode>, outcomes: multiset<Outcome>)
    ensures FromOutcomes(outcomes)
        == Disposition(DecisionFromCounts(rules, outcomes), ActionFromCounts(rules, outcomes))
      <==> (rules[ConflictingDuplicateRule] > 0 ==>
              outcomes[ConflictingDuplicate] > 0 || outcomes[BatchFatal] > 0)
  {
  }
}
