/** The static checks a mapping config and a file structure pass before any row is read. */
module QualityGate {
  import opened Contracts
  import opened Quality
  import opened Mapping

  /** What a config stores as its approved structure: nothing, something without a usable
      header list, or headers and a column count. */
  datatype Signature = NoSignature | Malformed | Shape(headers: seq<string>, count: Option<int>)

  datatype Config = Config(mappings: seq<FieldMapping>, signature: Signature)

  function FatalAs(code: RuleCode, field: string): (v: Violation) {
    Violation(code, Fatal, BatchFatal, field)
  }

  // ---------------------------------------------------------------------------
  // Config validation
  // ---------------------------------------------------------------------------

  predicate EmptyText(s: Option<string>) { s.None? || s.value == "" }

  /** A column that Python counts as false. */
  predicate EmptyColumn(c: Option<Column>) {
    c.None? || c.value == Number(0) || c.value == Name("")
  }

  /** Letters only, but for one newline that the pattern lets pass at the end. */
  predicate OnlyLetters(s: string) {
    var body := if s != "" && s[|s| - 1] == '\n' then s[..|s| - 1] else s;
    body != "" && forall i :: 0 <= i < |body| ==> IsLetter(body[i])
  }

  /** What one mapping gets wrong on its own. */
  function MappingErrors(m: FieldMapping): (errors: seq<Violation>) {
    var error := [FatalAs(ConfigValidation, m.path)];
    (if m.kind.AsConstant? && EmptyText(m.constant) then error else [])
    + (if m.kind.AsMapping? && (m.table.None? || m.table.value == map[]) then error else [])
    + (if m.required && EmptyColumn(m.column) && EmptyText(m.sourceField) && EmptyText(m.constant)
       then error else [])
    + (if m.column.Some? && m.column.value.Name? && !OnlyLetters(m.column.value.s) then error else [])
  }

  predicate Repeated(mappings: seq<FieldMapping>, i: nat)
    requires i < |mappings|
  {
    exists j :: 0 <= j < i && mappings[j].path == mappings[i].path
  }

  function ErrorsUpTo(mappings: seq<FieldMapping>, n: nat): (errors: seq<Violation>)
    requires n <= |mappings|
  {
    if n == 0 then []
    else
      var m := mappings[n - 1];
      ErrorsUpTo(mappings, n - 1)
      + (if Repeated(mappings, n - 1) then [FatalAs(ConfigValidation, m.path)] else [])
      + MappingErrors(m)
  }

  function ConfigErrors(mappings: seq<FieldMapping>): (errors: seq<Violation>) {
    if mappings == [] then [FatalAs(ConfigValidation, "_global")]
    else ErrorsUpTo(mappings, |mappings|)
  }

  method ValidateConfig(mappings: seq<FieldMapping>) returns (errors: seq<Violation>)
    ensures errors == ConfigErrors(mappings)
  {
    if mappings == [] {
      return [FatalAs(ConfigValidation, "_global")];
    }
    errors := [];
    var seen: set<string> := {};
    for i := 0 to |mappings|
      invariant errors == ErrorsUpTo(mappings, i)
      invariant forall path :: path in seen <==> exists j :: 0 <= j < i && mappings[j].path == path
    {
      var m := mappings[i];
      if m.path in seen {
        errors := errors + [FatalAs(ConfigValidation, m.path)];
      }
      seen := seen + {m.path};
      errors := errors + MappingErrors(m);
    }
  }

  /** A config passes exactly when it has mappings, no path twice, and nothing wrong in any
      mapping. */
  lemma {:induction false} ErrorFreeUpTo(mappings: seq<FieldMapping>, n: nat)
    requires n <= |mappings|
    ensures ErrorsUpTo(mappings, n) == []
      <==> forall i :: 0 <= i < n ==> !Repeated(mappings, i) && MappingErrors(mappings[i]) == []
  {
    if n > 0 {
      ErrorFreeUpTo(mappings, n - 1);
    }
  }

  lemma {:induction false} MappingErrorsAreFatal(m: FieldMapping)
    ensures forall v :: v in MappingErrors(m) ==> v.outcome == BatchFatal
  {
  }

  lemma {:induction false} ConfigErrorsAreFatal(mappings: seq<FieldMapping>, n: nat)
    requires n <= |mappings|
    ensures forall v :: v in ErrorsUpTo(mappings, n) ==> v.outcome == BatchFatal
  {
    if n > 0 {
      ConfigErrorsAreFatal(mappings, n - 1);
      MappingErrorsAreFatal(mappings[n - 1]);
    }
  }

  // ---------------------------------------------------------------------------
  // Mapping sources
  // ---------------------------------------------------------------------------

  function ColumnIndex(c: Column): (n: Option<int>) {
    match c
    case Number(n) => Some(n)
    case Name(s) => if AllDigits(s) then Some(FromDigits(s)) else NameIndex(Upper(s))
  }

  /** What the inspected structure says against one mapping, if anything. */
  function SourceError(m: FieldMapping, headers: seq<string>, columnCount: Option<int>, inspected: bool)
    : (v: Option<Violation>)
  {
    if m.kind.AsConstant? || !IsRequired(m) then None
    else if m.column.Some? && columnCount.Some? then
      var index := ColumnIndex(m.column.value);
      if index.None? || index.value < 1 || index.value > columnCount.value then
        Some(FatalAs(MissingRequiredSourceColumn, m.path))
      else if index.value <= |headers| && headers[index.value - 1] == "" then
        Some(FatalAs(MissingRequiredSourceColumn, m.path))
      else None
    else if m.sourceField.Some? && inspected && m.sourceField.value !in headers then
      Some(FatalAs(MissingRequiredSourceColumn, m.path))
    else if m.column.None? && m.sourceField.None? then
      Some(FatalAs(RequiredSchemaPath, m.path))
    else None
  }

  function SourceErrors(mappings: seq<FieldMapping>, headers: seq<string>, columnCount: Option<int>,
                        inspected: bool)
    : (vs: seq<Violation>)
  {
    if mappings == [] then []
    else
      var n := |mappings| - 1;
      var v := SourceError(mappings[n], headers, columnCount, inspected);
      SourceErrors(mappings[..n], headers, columnCount, inspected)
      + if v.Some? then [v.value] else []
  }

  method ValidateSources(mappings: seq<FieldMapping>, headers: seq<string>, columnCount: Option<int>,
                         inspected: bool)
    returns (violations: seq<Violation>)
    ensures violations == SourceErrors(mappings, headers, columnCount, inspected)
  {
    violations := [];
    for i := 0 to |mappings|
      invariant violations == SourceErrors(mappings[..i], headers, columnCount, inspected)
    {
      var m := mappings[i];
      assert mappings[..i + 1][..i] == mappings[..i];
      if m.kind.AsConstant? {
        continue;
      }
      var required := IsRequired(m);
      if m.column.Some? && columnCount.Some? {
        var index := ColumnIndex(m.column.value);
        if index.None? || index.value < 1 || index.value > columnCount.value {
          if required {
            violations := violations + [FatalAs(MissingRequiredSourceColumn, m.path)];
          }
        } else if headers != [] && index.value <= |headers| && headers[index.value - 1] == "" {
          if required {
            violations := violations + [FatalAs(MissingRequiredSourceColumn, m.path)];
          }
        }
      } else if m.sourceField.Some? && inspected && m.sourceField.value !in headers {
        if required {
          violations := violations + [FatalAs(MissingRequiredSourceColumn, m.path)];
        }
      } else if m.column.None? && m.sourceField.None? && required {
        violations := violations + [FatalAs(RequiredSchemaPath, m.path)];
      }
    }
    assert mappings[..|mappings|] == mappings;
  }

  // ---------------------------------------------------------------------------
  // Structure drift
  // ---------------------------------------------------------------------------

  /** Python's `xs[:n]`, where a negative `n` counts from the end. */
  function FirstColumns(xs: seq<string>, n: int): (first: seq<string>) {
    if n >= 0 then xs[..if n < |xs| then n else |xs|]
    else xs[..if |xs| + n > 0 then |xs| + n else 0]
  }

  function ShapeOf(s: Signature): (shape: Option<(seq<string>, int)>) {
    if !s.Shape? || s.headers == [] then None
    else Some((s.headers, if s.count.Some? then s.count.value else |s.headers|))
  }

  predicate Equivalent(left: Signature, right: Signature) {
    ShapeOf(left).Some? && ShapeOf(left) == ShapeOf(right)
  }

  predicate AppendOnly(expected: Signature, actual: Signature) {
    var e, a := ShapeOf(expected), ShapeOf(actual);
    && e.Some? && a.Some?
    && a.value.1 > e.value.1 && FirstColumns(a.value.0, e.value.1) == e.value.0
  }

  function DriftViolation(expected: Signature, headers: seq<string>, columnCount: Option<int>)
    : (v: Option<Violation>)
  {
    var count := if columnCount.Some? && columnCount.value != 0 then columnCount.value else |headers|;
    var actual := Shape(headers, Some(count));
    if expected.NoSignature? || headers == [] || Equivalent(expected, actual) then None
    else if AppendOnly(expected, actual) then
      Some(Violation(SchemaConfigDrift, WarningSeverity, Outcome.Warning, "_schema"))
    else Some(FatalAs(SchemaConfigDrift, "_schema"))
  }

  /** The approved columns are where they were: every approved header is at its old index. */
  ghost predicate ColumnsUnchanged(approved: seq<string>, headers: seq<string>) {
    |approved| <= |headers| && forall i :: 0 <= i < |approved| ==> headers[i] == approved[i]
  }

  lemma {:induction false} PrefixIsUnchanged(approved: seq<string>, headers: seq<string>, n: int)
    ensures FirstColumns(headers, n) == approved <==>
      ColumnsUnchanged(approved, headers) && |FirstColumns(headers, n)| == |approved|
  {
    if ColumnsUnchanged(approved, headers) && |FirstColumns(headers, n)| == |approved| {
      assert FirstColumns(headers, n) == headers[..|approved|] == approved;
    }
  }

  /** Drift that is not fatal leaves every approved column unchanged. It is not fatal exactly when
      they are unchanged and the file is as wide as approved, with no header more, or wider, and
      its headers up to the approved width are as many as the approved ones. Only a file without
      headers escapes the check. */
  lemma {:induction false} DriftKeepsApprovedColumns(expected: Signature, headers: seq<string>,
                                                     columnCount: Option<int>)
    requires !expected.NoSignature? && headers != []
    ensures var v := DriftViolation(expected, headers, columnCount);
      v == None || v.value.outcome == Outcome.Warning ==>
        expected.Shape? && ColumnsUnchanged(expected.headers, headers)
    ensures var v := DriftViolation(expected, headers, columnCount);
      (v == None || v.value.outcome != BatchFatal) <==>
        (&& expected.Shape? && expected.headers != []
         && ColumnsUnchanged(expected.headers, headers)
         && var approved := if expected.count.Some? then expected.count.value else |expected.headers|;
            var width := if columnCount.Some? && columnCount.value != 0 then columnCount.value else |headers|;
            || (width == approved && |headers| == |expected.headers|)
            || (width > approved && |FirstColumns(headers, approved)| == |expected.headers|))
  {
    if expected.Shape? && expected.headers != [] {
      var approved := if expected.count.Some? then expected.count.value else |expected.headers|;
      PrefixIsUnchanged(expected.headers, headers, approved);
      if ColumnsUnchanged(expected.headers, headers) && |headers| == |expected.headers| {
        assert headers == expected.headers;
      }
    }
  }

  /** For a signature that records its own headers, and a file inspected as wide as its header:
      drift is not fatal exactly when the approved columns are unchanged. */
  lemma {:induction false} DriftIsFatalExactly(expected: Signature, headers: seq<string>)
    requires expected.Shape? && expected.headers != [] && expected.count == Some(|expected.headers|)
    requires headers != []
    ensures DriftViolation(expected, headers, Some(|headers|)) == Some(FatalAs(SchemaConfigDrift, "_schema"))
      <==> !ColumnsUnchanged(expected.headers, headers)
  {
    if ColumnsUnchanged(expected.headers, headers) {
      assert headers[..|expected.headers|] == expected.headers;
      if |headers| == |expected.headers| {
        assert headers == expected.headers;
      }
    }
  }

  // ---------------------------------------------------------------------------
  // The gate
  // ---------------------------------------------------------------------------

  const SORTED_REQUIRED_PATHS: seq<string> := ["amount", "currency", "id", "status"]

  function MissingPaths(mappings: seq<FieldMapping>, n: nat): (vs: seq<Violation>)
    requires n <= |SORTED_REQUIRED_PATHS|
  {
    if n == 0 then []
    else
      var path := SORTED_REQUIRED_PATHS[n - 1];
      MissingPaths(mappings, n - 1)
      + if exists m :: m in mappings && m.path == path then [] else [FatalAs(RequiredSchemaPath, path)]
  }

  /** What an inspection found: stripped headers and a column count, either of which may be
      missing when the file was not inspected. */
  datatype Structure = Structure(headers: seq<string>, columnCount: Option<int>, inspected: bool)

  function Width(s: Structure): (n: Option<int>) {
    if s.columnCount.None? && s.headers != [] then Some(|s.headers|) else s.columnCount
  }

  function GateViolations(config: Config, s: Structure): (vs: seq<Violation>) {
    var drift := DriftViolation(config.signature, s.headers, Width(s));
    ConfigErrors(config.mappings)
    + MissingPaths(config.mappings, |SORTED_REQUIRED_PATHS|)
    + SourceErrors(config.mappings, s.headers, Width(s), s.inspected)
    + if drift.Some? then [drift.value] else []
  }

  predicate HasFatal(vs: seq<Violation>) { exists v :: v in vs && v.outcome == BatchFatal }

  method Evaluate(config: Config, s: Structure) returns (outcome: Outcome, violations: seq<Violation>)
    ensures violations == GateViolations(config, s)
    ensures outcome == BatchFatal <==> HasFatal(violations)
    ensures outcome == Outcome.Valid <==> violations == []
  {
    var columnCount := s.columnCount;
    if columnCount.None? && s.headers != [] {
      columnCount := Some(|s.headers|);
    }
    violations := ValidateConfig(config.mappings);
    violations := violations + MissingPaths(config.mappings, |SORTED_REQUIRED_PATHS|);
    var sources := ValidateSources(config.mappings, s.headers, columnCount, s.inspected);
    violations := violations + sources;
    var drift := DriftViolation(config.signature, s.headers, columnCount);
    violations := violations + if drift.Some? then [drift.value] else [];
    outcome :=
      if HasFatal(violations) then BatchFatal
      else if violations != [] then Outcome.Warning else Outcome.Valid;
  }

  ghost predicate PathsMapped(mappings: seq<FieldMapping>, n: nat)
    requires n <= |SORTED_REQUIRED_PATHS|
  {
    forall i :: 0 <= i < n ==> exists m :: m in mappings && m.path == SORTED_REQUIRED_PATHS[i]
  }

  lemma {:induction false} MissingPathsExactly(mappings: seq<FieldMapping>, n: nat)
    requires n <= |SORTED_REQUIRED_PATHS|
    ensures MissingPaths(mappings, n) == [] <==> PathsMapped(mappings, n)
    ensures forall v :: v in MissingPaths(mappings, n) ==> v.outcome == BatchFatal
  {
    if n > 0 {
      MissingPathsExactly(mappings, n - 1);
    }
  }

  ghost predicate SourcesAccepted(mappings: seq<FieldMapping>, headers: seq<string>,
                                  columnCount: Option<int>, inspected: bool)
  {
    forall m :: m in mappings ==> SourceError(m, headers, columnCount, inspected) == None
  }

  lemma {:induction false} SourceErrorsExactly(mappings: seq<FieldMapping>, headers: seq<string>,
                                               columnCount: Option<int>, inspected: bool)
    ensures SourceErrors(mappings, headers, columnCount, inspected) == []
      <==> SourcesAccepted(mappings, headers, columnCount, inspected)
    ensures forall v :: v in SourceErrors(mappings, headers, columnCount, inspected) ==>
      v.outcome == BatchFatal
  {
    if mappings != [] {
      var n := |mappings| - 1;
      assert mappings == mappings[..n] + [mappings[n]];
      SourceErrorsExactly(mappings[..n], headers, columnCount, inspected);
    }
  }

  ghost predicate ConfigSound(mappings: seq<FieldMapping>) {
    && mappings != []
    && forall i :: 0 <= i < |mappings| ==>
         !Repeated(mappings, i) && MappingErrors(mappings[i]) == []
  }

  ghost predicate DriftAccepted(config: Config, s: Structure) {
    var v := DriftViolation(config.signature, s.headers, Width(s));
    v.Some? ==> v.value.outcome != BatchFatal
  }

  lemma {:induction false} FatalIn(a: seq<Violation>, b: seq<Violation>)
    ensures HasFatal(a + b) <==> HasFatal(a) || HasFatal(b)
  {
    if HasFatal(a) {
      var v :| v in a && v.outcome == BatchFatal;
      assert v in a + b;
    }
    if HasFatal(b) {
      var v :| v in b && v.outcome == BatchFatal;
      assert v in a + b;
    }
  }

  lemma {:induction false} AllFatal(vs: seq<Violation>)
    requires forall v :: v in vs ==> v.outcome == BatchFatal
    ensures HasFatal(vs) <==> vs != []
  {
    if vs != [] {
      assert vs[0] in vs;
    }
  }

  lemma {:induction false} FatalInParts(a: seq<Violation>, b: seq<Violation>, c: seq<Violation>,
                                        d: seq<Violation>)
    ensures HasFatal(a + b + c + d) <==> HasFatal(a) || HasFatal(b) || HasFatal(c) || HasFatal(d)
  {
    FatalIn(a, b);
    FatalIn(a + b, c);
    FatalIn(a + b + c, d);
  }

  lemma {:induction false} ConfigErrorsExactly(mappings: seq<FieldMapping>)
    ensures HasFatal(ConfigErrors(mappings)) <==> !ConfigSound(mappings)
  {
    ErrorFreeUpTo(mappings, |mappings|);
    ConfigErrorsAreFatal(mappings, |mappings|);
    AllFatal(ConfigErrors(mappings));
  }

  lemma {:induction false} DriftExactly(config: Config, s: Structure)
    ensures var v := DriftViolation(config.signature, s.headers, Width(s));
      HasFatal(if v.Some? then [v.value] else []) <==> !DriftAccepted(config, s)
  {
    var v := DriftViolation(config.signature, s.headers, Width(s));
    if v.Some? {
      assert v.value in [v.value];
    }
  }

  /** The gate fails the file exactly when the config is unsound, a required path is unmapped,
      a required source is not in the structure, or the drift is fatal. */
  lemma {:induction false} GateIsExact(config: Config, s: Structure)
    ensures !HasFatal(GateViolations(config, s)) <==>
      && ConfigSound(config.mappings)
      && PathsMapped(config.mappings, |SORTED_REQUIRED_PATHS|)
      && SourcesAccepted(config.mappings, s.headers, Width(s), s.inspected)
      && DriftAccepted(config, s)
  {
    var mappings := config.mappings;
    var missing := MissingPaths(mappings, |SORTED_REQUIRED_PATHS|);
    var sources := SourceErrors(mappings, s.headers, Width(s), s.inspected);
    var v := DriftViolation(config.signature, s.headers, Width(s));
    FatalInParts(ConfigErrors(mappings), missing, sources, if v.Some? then [v.value] else []);
    ConfigErrorsExactly(mappings);
    MissingPathsExactly(mappings, |SORTED_REQUIRED_PATHS|);
    AllFatal(missing);
    SourceErrorsExactly(mappings, s.headers, Width(s), s.inspected);
    AllFatal(sources);
    DriftExactly(config, s);
  }
}
