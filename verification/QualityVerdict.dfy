/** The two verdicts on a dataset: one result per rule, and one overall decision. */
module QualityVerdict {
  import opened Contracts
  import opened QualityScan
  import opened QualityScanLaws

  datatype Result = Passed | Warned | ToReview | Broken

  datatype Code =
    | SchemaRequiredColumns | SchemaDrift | MalformedRow | Required(column: string)
    | UniqueKey | ConflictingDuplicate
    | InvalidTimestamp | TimezoneRequired | PrecisionDrift
    | InvalidAmount | AmountOverflow | InvalidNumeric

  datatype Rule = Rule(code: Code, result: Result)

  datatype Decision = FAIL | REVIEW | PASS

  // ---------------------------------------------------------------------------
  // The schema
  // ---------------------------------------------------------------------------

  predicate MissingRequired(s: Spec, headers: Line) {
    exists c :: c in s.requiredColumns && c !in headers
  }

  predicate MissingOptional(s: Spec, headers: Line) {
    exists c :: c in s.expectedColumns && c !in s.requiredColumns && c !in headers
  }

  predicate Unexpected(s: Spec, headers: Line) { exists c :: c in headers && c !in s.expectedColumns }

  predicate SchemaBroken(s: Spec, headers: Line) { MissingRequired(s, headers) || !NoRepeats(headers) }

  predicate SchemaDrifted(s: Spec, headers: Line) { MissingOptional(s, headers) || Unexpected(s, headers) }

  // ---------------------------------------------------------------------------
  // The verdicts
  // ---------------------------------------------------------------------------

  function Judge(code: Code, bad: bool, verdict: Result): (r: Rule) {
    Rule(code, if bad then verdict else Passed)
  }

  function OtherNumeric(s: Spec): (columns: set<string>) {
    s.numericColumns - if s.amountColumn.Some? then {s.amountColumn.value} else {}
  }

  /** A configured column with an empty name counts as not configured here. */
  predicate Configured(column: Option<string>) { column.Some? && column.value != "" }

  function TimestampRules(scan: Scan): (rules: seq<Rule>) {
    [Judge(InvalidTimestamp, scan.findings.badTimestamps != {}, Broken),
     Judge(TimezoneRequired, scan.findings.zoneMissing != {}, Broken),
     Judge(PrecisionDrift, scan.findings.subsecond > 0, ToReview)]
  }

  function AmountRules(scan: Scan): (rules: seq<Rule>) {
    [Judge(InvalidAmount, scan.findings.badAmounts != {}, Broken),
     Judge(AmountOverflow, scan.findings.overflows > 0, Warned)]
  }

  function RequiredRule(scan: Scan, column: string): (r: Rule) {
    Judge(Required(column), scan.findings.missingByField[column] > 0, Broken)
  }

  /** The rules of a dataset. Only the order of the required columns is left open. */
  ghost predicate InRules(s: Spec, headers: Line, scan: Scan, rule: Rule) {
    || rule == Judge(SchemaRequiredColumns, SchemaBroken(s, headers), Broken)
    || rule == Judge(SchemaDrift, SchemaDrifted(s, headers), ToReview)
    || rule == Judge(MalformedRow, scan.malformed > 0, Broken)
    || (rule.code.Required? && rule.code.column in s.requiredColumns
        && rule == RequiredRule(scan, rule.code.column))
    || rule == Judge(UniqueKey, scan.keys.duplicates != {}, Warned)
    || rule == Judge(ConflictingDuplicate, scan.keys.conflicting != {}, Broken)
    || (Configured(s.timestampColumn) && rule in TimestampRules(scan))
    || (Configured(s.amountColumn) && rule in AmountRules(scan))
    || (OtherNumeric(s) != {}
        && rule == Judge(InvalidNumeric, scan.findings.badNumeric != {}, ToReview))
  }

  method BuildRuleResults(s: Spec, headers: Line, scan: Scan) returns (rules: seq<Rule>)
    ensures forall rule :: rule in rules <==> InRules(s, headers, scan, rule)
  {
    rules := [Judge(SchemaRequiredColumns, SchemaBroken(s, headers), Broken),
              Judge(SchemaDrift, SchemaDrifted(s, headers), ToReview),
              Judge(MalformedRow, scan.malformed > 0, Broken)];
    ghost var fixed := rules;
    var todo := s.requiredColumns;
    while todo != {}
      invariant todo <= s.requiredColumns
      invariant forall rule :: rule in rules <==>
        (rule in fixed
         || (rule.code.Required? && rule.code.column in s.requiredColumns - todo
             && rule == RequiredRule(scan, rule.code.column)))
      decreases todo
    {
      var column :| column in todo;
      todo := todo - {column};
      rules := rules + [RequiredRule(scan, column)];
    }
    rules := rules + [Judge(UniqueKey, scan.keys.duplicates != {}, Warned),
                      Judge(ConflictingDuplicate, scan.keys.conflicting != {}, Broken)];
    if Configured(s.timestampColumn) {
      rules := rules + TimestampRules(scan);
    }
    if Configured(s.amountColumn) {
      rules := rules + AmountRules(scan);
    }
    if OtherNumeric(s) != {} {
      rules := rules + [Judge(InvalidNumeric, scan.findings.badNumeric != {}, ToReview)];
    }
  }

  function Decide(s: Spec, headers: Line, scan: Scan): (d: Decision) {
    var g := scan.findings;
    if SchemaBroken(s, headers) || g.rejected != {} then FAIL
    else if SchemaDrifted(s, headers) || g.subsecond > 0 || g.overflows > 0 || g.badNumeric != {} then REVIEW
    else PASS
  }

  // ---------------------------------------------------------------------------
  // The verdicts agree
  // ---------------------------------------------------------------------------

  /** Every rejected row has a reason among the other findings, and findings about a column
      need that column to be configured. */
  ghost predicate Explained(s: Spec, scan: Scan) {
    var g := scan.findings;
    && (g.rejected != {} <==>
        scan.malformed > 0 || scan.keys.conflicting != {} || g.missing != {}
        || g.badTimestamps != {} || g.zoneMissing != {} || g.badAmounts != {})
    && (g.missing != {} <==> exists c :: c in s.requiredColumns && g.missingByField[c] > 0)
    && (s.timestampColumn.None? ==> g.badTimestamps == g.zoneMissing == {} && g.subsecond == 0)
    && (s.amountColumn.None? ==> g.badAmounts == {} && g.overflows == 0)
    && (g.badNumeric != {} ==> OtherNumeric(s) != {})
  }

  lemma {:induction false} AddIfEmpty(ns: set<nat>, n: nat, yes: bool)
    ensures AddIf(ns, n, yes) != {} <==> ns != {} || yes
  {
    assert yes ==> n in AddIf(ns, n, yes);
  }

  lemma {:induction false} FaultsExplained(r: Readers, s: Spec, headers: Line, row: Line)
    requires WellFormed(headers, row)
    ensures var f := FaultsOf(r, s, headers, row);
      && f.required <= s.requiredColumns
      && (s.timestampColumn.None? ==> !f.hasTimestamp)
      && (s.amountColumn.None? ==> !f.hasAmount)
      && (f.numeric ==> OtherNumeric(s) != {})
  {
    if FaultsOf(r, s, headers, row).numeric {
      var c :| c in s.numericColumns && Some(c) != s.amountColumn && NotNumeric(r, headers, row, c);
      assert c in OtherNumeric(s);
    }
  }

  lemma {:induction false} RecordingExplains(s: Spec, scan: Scan, f: Faults, n: nat)
    requires Explained(s, scan) && f.required <= s.requiredColumns
    requires s.timestampColumn.None? ==> !f.hasTimestamp
    requires s.amountColumn.None? ==> !f.hasAmount
    requires f.numeric ==> OtherNumeric(s) != {}
    ensures Explained(s, scan.(findings := RecordFaults(scan.findings, f, n)))
  {
    var g := scan.findings;
    AddIfEmpty(g.rejected, n, Rejects(f));
    AddIfEmpty(g.missing, n, f.required != {});
    AddIfEmpty(g.badTimestamps, n, BadTimestamp(f));
    AddIfEmpty(g.zoneMissing, n, ZoneMissing(f));
    AddIfEmpty(g.badAmounts, n, BadAmount(f));
    AddIfEmpty(g.badNumeric, n, f.numeric);
    MissingByFieldGrows(s, g.missingByField, f.required);
  }

  lemma {:induction false} MissingByFieldGrows(s: Spec, byField: multiset<string>,
                                               required: set<string>)
    requires required <= s.requiredColumns
    ensures (exists c :: c in s.requiredColumns && (byField + multiset(required))[c] > 0) <==>
      (exists c :: c in s.requiredColumns && byField[c] > 0) || required != {}
  {
    var after := byField + multiset(required);
    if required != {} {
      var c :| c in required;
      assert after[c] > 0;
    }
    if c :| c in s.requiredColumns && byField[c] > 0 {
      assert after[c] > 0;
    }
  }

  lemma {:induction false} ScansAreExplained(r: Readers, s: Spec, headers: Line, rows: seq<Line>,
                                             n: nat)
    requires n <= |rows|
    ensures Explained(s, ScanUpTo(r, s, headers, rows, n))
  {
    if n > 0 {
      var before, row := ScanUpTo(r, s, headers, rows, n - 1), rows[n - 1];
      ScansAreExplained(r, s, headers, rows, n - 1);
      StepByKind(r, s, headers, rows, n);
      if KindOf(s, headers, rows, n - 1).Checked? {
        FaultsExplained(r, s, headers, row);
        RecordingExplains(s, before, FaultsOf(r, s, headers, row), n);
      } else {
        assert n in Reject(before.findings, n).rejected;
      }
    }
  }

  /** Rejections that no rule reports: those for a column whose configured name is empty. */
  predicate Hidden(s: Spec, scan: Scan) {
    var g := scan.findings;
    || (s.timestampColumn == Some("") && (g.badTimestamps != {} || g.zoneMissing != {}))
    || (s.amountColumn == Some("") && g.badAmounts != {})
  }

  ghost predicate SomeRuleFails(s: Spec, headers: Line, scan: Scan) {
    exists rule :: InRules(s, headers, scan, rule) && rule.result == Broken
  }

  ghost predicate AllRulesPass(s: Spec, headers: Line, scan: Scan) {
    forall rule :: InRules(s, headers, scan, rule) && rule.code != UniqueKey ==> rule.result == Passed
  }

  /** The findings that some rule turns into a failure. */
  ghost predicate Reported(s: Spec, headers: Line, scan: Scan) {
    var g := scan.findings;
    || SchemaBroken(s, headers) || scan.malformed > 0 || scan.keys.conflicting != {}
    || (exists c :: c in s.requiredColumns && g.missingByField[c] > 0)
    || (Configured(s.timestampColumn) && (g.badTimestamps != {} || g.zoneMissing != {}))
    || (Configured(s.amountColumn) && g.badAmounts != {})
  }

  lemma {:induction false} FailuresAreReported(s: Spec, headers: Line, scan: Scan)
    ensures SomeRuleFails(s, headers, scan) <==> Reported(s, headers, scan)
  {
    var g := scan.findings;
    assert InRules(s, headers, scan, Judge(SchemaRequiredColumns, SchemaBroken(s, headers), Broken));
    assert InRules(s, headers, scan, Judge(MalformedRow, scan.malformed > 0, Broken));
    assert InRules(s, headers, scan, Judge(ConflictingDuplicate, scan.keys.conflicting != {}, Broken));
    if c :| c in s.requiredColumns && g.missingByField[c] > 0 {
      assert InRules(s, headers, scan, RequiredRule(scan, c));
    }
    if Configured(s.timestampColumn) {
      assert InRules(s, headers, scan, TimestampRules(scan)[0]);
      assert InRules(s, headers, scan, TimestampRules(scan)[1]);
    }
    if Configured(s.amountColumn) {
      assert InRules(s, headers, scan, AmountRules(scan)[0]);
    }
  }

  /** On every file the decision is FAIL exactly when some rule fails or a rejection is hidden
      behind an empty column name. */
  lemma {:induction false} DecisionFailsExactly(r: Readers, s: Spec, headers: Line, rows: seq<Line>)
    ensures var scan := ScanOf(r, s, headers, rows);
      Decide(s, headers, scan) == FAIL <==> SomeRuleFails(s, headers, scan) || Hidden(s, scan)
  {
    ScansAreExplained(r, s, headers, rows, |rows|);
    FailuresAreReported(s, headers, ScanOf(r, s, headers, rows));
  }

  /** With named columns the two verdicts agree on every file: the decision is FAIL exactly when
      some rule fails, and PASS exactly when every rule but the uniqueness rule passes. */
  lemma {:induction false} VerdictsAgree(r: Readers, s: Spec, headers: Line, rows: seq<Line>)
    requires s.timestampColumn != Some("") && s.amountColumn != Some("")
    ensures var scan := ScanOf(r, s, headers, rows);
      && (Decide(s, headers, scan) == FAIL <==> SomeRuleFails(s, headers, scan))
      && (Decide(s, headers, scan) == PASS <==> AllRulesPass(s, headers, scan))
  {
    var scan := ScanOf(r, s, headers, rows);
    ScansAreExplained(r, s, headers, rows, |rows|);
    FailuresAreReported(s, headers, scan);
    PassesAreClean(s, headers, scan);
  }

  ghost predicate SomeRuleReviews(s: Spec, headers: Line, scan: Scan) {
    exists rule :: InRules(s, headers, scan, rule) && rule.code != UniqueKey
      && rule.result in {Warned, ToReview}
  }

  predicate Reviewable(s: Spec, headers: Line, scan: Scan) {
    || SchemaDrifted(s, headers)
    || (Configured(s.timestampColumn) && scan.findings.subsecond > 0)
    || (Configured(s.amountColumn) && scan.findings.overflows > 0)
    || (OtherNumeric(s) != {} && scan.findings.badNumeric != {})
  }

  lemma {:induction false} ReviewHasReason(s: Spec, headers: Line, scan: Scan, rule: Rule)
    requires InRules(s, headers, scan, rule) && rule.code != UniqueKey
    requires rule.result in {Warned, ToReview}
    ensures Reviewable(s, headers, scan)
  {
  }

  lemma {:induction false} ReasonIsReviewed(s: Spec, headers: Line, scan: Scan)
    requires Reviewable(s, headers, scan)
    ensures SomeRuleReviews(s, headers, scan)
  {
    if SchemaDrifted(s, headers) {
      assert InRules(s, headers, scan, Judge(SchemaDrift, true, ToReview));
    } else if Configured(s.timestampColumn) && scan.findings.subsecond > 0 {
      assert InRules(s, headers, scan, TimestampRules(scan)[2]);
    } else if Configured(s.amountColumn) && scan.findings.overflows > 0 {
      assert InRules(s, headers, scan, AmountRules(scan)[1]);
    } else {
      assert InRules(s, headers, scan, Judge(InvalidNumeric, true, ToReview));
    }
  }

  lemma {:induction false} ReviewsAreReported(s: Spec, headers: Line, scan: Scan)
    ensures SomeRuleReviews(s, headers, scan) <==> Reviewable(s, headers, scan)
  {
    if rule :| InRules(s, headers, scan, rule) && rule.code != UniqueKey && rule.result in {Warned, ToReview} {
      ReviewHasReason(s, headers, scan, rule);
    }
    if Reviewable(s, headers, scan) {
      ReasonIsReviewed(s, headers, scan);
    }
  }

  lemma {:induction false} ResultsAreThree(s: Spec, headers: Line, scan: Scan)
    ensures AllRulesPass(s, headers, scan) <==>
      !SomeRuleFails(s, headers, scan) && !SomeRuleReviews(s, headers, scan)
  {
    forall rule | InRules(s, headers, scan, rule) && rule.code == UniqueKey
      ensures rule.result != Broken
    {
    }
  }

  lemma {:induction false} PassesAreClean(s: Spec, headers: Line, scan: Scan)
    requires Explained(s, scan) && s.timestampColumn != Some("") && s.amountColumn != Some("")
    ensures AllRulesPass(s, headers, scan) <==> Decide(s, headers, scan) == PASS
  {
    FailuresAreReported(s, headers, scan);
    ReviewsAreReported(s, headers, scan);
    ResultsAreThree(s, headers, scan);
  }

  /** A valid spec with an empty timestamp column name parts the verdicts: an unreadable
      timestamp fails the file, and no rule says so. */
  lemma {:induction false} EmptyColumnNamePartsVerdicts(r: Readers)
    requires r.timestamp("x") == NotATimestamp
    ensures var s := Spec(["id", ""], {}, "id", {}, None, Some(""));
      var headers, rows := ["id", ""], [["1", "x"]];
      var scan := ScanOf(r, s, headers, rows);
      ValidSpec(s) && Decide(s, headers, scan) == FAIL && !SomeRuleFails(s, headers, scan)
  {
    var s := Spec(["id", ""], {}, "id", {}, None, Some(""));
    var headers, row := ["id", ""], ["1", "x"];
    var scan := ScanOf(r, s, headers, [row]);
    assert [row][..0] == [];
    assert Strip("x") == "x" && Lower("x") == "x" && Clean("x") == "x";
    assert TextOf(headers, row, "") == "x";
    assert FirstCarrier(s, headers, [row], 0, KeyOf(s, headers, row)) == None;
    StepByKind(r, s, headers, [row], 1);
    assert 1 in scan.findings.badTimestamps && 1 in scan.findings.rejected;
    FailuresAreReported(s, headers, scan);
  }
}
