/** What the static gate promises the column resolver of the row loop. */
module GateSoundness {
  import opened Contracts
  import opened Mapping
  import opened Normalizer
  import Gate = QualityGate

  /** The gate and the resolver read a column the same way. */
  lemma {:induction false} SameIndex(c: Column)
    ensures Gate.ColumnIndex(c)
      == match c
         case Number(n) => Some(n)
         case Name(s) => if AllDigits(s) then Some(FromDigits(s)) else NameIndex(s)
  {
    if c.Name? {
      UpperIsIrrelevant(c.s);
    }
  }

  /** A required column mapping is accepted exactly when it resolves on a row as wide as the
      file, and its column has a header where the file has headers that far. */
  lemma {:induction false} AcceptedColumnsResolve(m: FieldMapping, headers: seq<string>, width: nat,
                                                  inspected: bool, cells: seq<Cell>)
    requires IsRequired(m) && !m.kind.AsConstant? && m.column.Some? && |cells| == width
    ensures Gate.SourceError(m, headers, Some(width), inspected) == None
      <==> Resolve(Cells(cells), m).Resolved?
           && var index := Gate.ColumnIndex(m.column.value).value;
              (index <= |headers| ==> headers[index - 1] != "")
  {
    SameIndex(m.column.value);
  }

  /** After a gate without fatal violations, every required column mapping resolves on every
      row at least as wide as the inspected structure. */
  lemma {:induction false} GateIsSoundForColumns(config: Gate.Config, s: Gate.Structure,
                                                 m: FieldMapping, cells: seq<Cell>)
    requires !Gate.HasFatal(Gate.GateViolations(config, s)) && Gate.Width(s).Some?
    requires m in config.mappings && IsRequired(m) && !m.kind.AsConstant? && m.column.Some?
    requires |cells| >= Gate.Width(s).value
    ensures Resolve(Cells(cells), m).Resolved?
  {
    Gate.GateIsExact(config, s);
    SameIndex(m.column.value);
    assert Gate.SourceError(m, s.headers, Gate.Width(s), s.inspected) == None;
  }

  /** With an approved signature and a header, every approved column is still where it was,
      columns appended or not. */
  lemma {:induction false} GateKeepsApprovedColumns(config: Gate.Config, s: Gate.Structure)
    requires !Gate.HasFatal(Gate.GateViolations(config, s))
    requires !config.signature.NoSignature? && s.headers != []
    ensures config.signature.Shape?
    ensures Gate.ColumnsUnchanged(config.signature.headers, s.headers)
  {
    Gate.GateIsExact(config, s);
    Gate.DriftKeepsApprovedColumns(config.signature, s.headers, Gate.Width(s));
  }

  /** Without a width the gate cannot vouch for columns: any config of column mappings that is
      otherwise sound passes, however far to the right its columns are. */
  lemma {:induction false} NoWidthNoPromise(config: Gate.Config, inspected: bool)
    requires Gate.ConfigSound(config.mappings) && config.signature.NoSignature?
    requires Gate.PathsMapped(config.mappings, |Gate.SORTED_REQUIRED_PATHS|)
    requires forall m :: m in config.mappings ==> m.column.Some? && m.sourceField.None?
    ensures !Gate.HasFatal(Gate.GateViolations(config, Gate.Structure([], None, inspected)))
  {
    Gate.GateIsExact(config, Gate.Structure([], None, inspected));
  }

  /** Neither does it for source fields: one named in the header is accepted, and never resolves
      on a row of cells. */
  lemma {:induction false} SourceFieldsNeverResolveOnCells(
    m: FieldMapping, headers: seq<string>, width: Option<int>, cells: seq<Cell>)
    requires m.column.None? && m.sourceField.Some? && m.sourceField.value in headers
    ensures Gate.SourceError(m, headers, width, true) == None
    ensures Resolve(Cells(cells), m) == Unresolved(NeedsFields)
  {
  }
}
