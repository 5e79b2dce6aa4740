/** Field-by-field normalization of one source row, and the two builders that turn the result
    into a transaction. */
module Normalizer {
  import opened Contracts
  import opened Quality
  import opened Mapping

  // ---------------------------------------------------------------------------
  // Values
  // ---------------------------------------------------------------------------

  datatype Money = Finite(text: string, negative: bool) | NotFinite(text: string)

  datatype Moment = Moment(at: int, shown: string)

  /** A source or canonical value; `shown` is its text form. */
  datatype Cell =
    | Nothing
    | Text(text: string)
    | Whole(shown: string)
    | Floating(shown: string)
    | Amount(money: Money)
    | Instant(moment: Moment)
    | Other(shown: string)

  function Show(c: Cell): (s: string) {
    match c
    case Nothing => "None"
    case Text(s) => s
    case Amount(m) => m.text
    case Instant(m) => m.shown
    case Whole(s) => s
    case Floating(s) => s
    case Other(s) => s
  }

  datatype Key = NumberKey(n: int) | NameKey(s: string)

  datatype SourceRow = Cells(cells: seq<Cell>) | Fields(fields: map<Key, Cell>) | NoRow

  /** Library code: decimal and timestamp parsing, and the date coercion of the model class. */
  datatype Library = Library(
    decimal: string -> Option<Money>,
    instant: Cell -> Option<Moment>,
    coerced: Cell -> Option<Moment>)

  // ---------------------------------------------------------------------------
  // Source resolution
  // ---------------------------------------------------------------------------

  datatype Reason = ColumnNotFound | BadLetter | OutOfRange | FieldNotFound | NeedsFields | NoColumn

  datatype Resolution = Resolved(cell: Cell) | Unresolved(reason: Reason) | Raised

  function Letters(n: nat): (s: string)
    requires n >= 1
  {
    (if n <= 26 then "" else Letters((n - 1) / 26)) + ["ABCDEFGHIJKLMNOPQRSTUVWXYZ"[(n - 1) % 26]]
  }

  const LAST_COLUMN := 18278

  function ResolveInFields(fields: map<Key, Cell>, column: Column): (r: Resolution) {
    match column
    case Number(n) =>
      if NumberKey(n) in fields then Resolved(fields[NumberKey(n)])
      else if !(1 <= n <= LAST_COLUMN) then Raised
      else if NameKey(Letters(n)) in fields then Resolved(fields[NameKey(Letters(n))])
      else Unresolved(ColumnNotFound)
    case Name(s) =>
      if NameKey(s) in fields then Resolved(fields[NameKey(s)])
      else if AllDigits(s) && NumberKey(FromDigits(s)) in fields then
        Resolved(fields[NumberKey(FromDigits(s))])
      else Unresolved(ColumnNotFound)
  }

  function ResolveInCells(cells: seq<Cell>, column: Column): (r: Resolution) {
    var index :=
      match column
      case Number(n) => Some(n)
      case Name(s) => if AllDigits(s) then Some(FromDigits(s)) else NameIndex(s);
    if index.None? then Unresolved(BadLetter)
    else if index.value - 1 < 0 || index.value - 1 >= |cells| then Unresolved(OutOfRange)
    else Resolved(cells[index.value - 1])
  }

  function Resolve(row: SourceRow, m: FieldMapping): (r: Resolution) {
    if m.column.Some? && row.Fields? then ResolveInFields(row.fields, m.column.value)
    else if m.column.Some? && row.Cells? then ResolveInCells(row.cells, m.column.value)
    else if m.sourceField.Some? then
      if !row.Fields? then Unresolved(NeedsFields)
      else if NameKey(m.sourceField.value) in row.fields then
        Resolved(row.fields[NameKey(m.sourceField.value)])
      else Unresolved(FieldNotFound)
    else Unresolved(NoColumn)
  }

  // ---------------------------------------------------------------------------
  // Conversion
  // ---------------------------------------------------------------------------

  datatype Conversion = Stored(value: Cell) | Skipped | Rejected(code: RuleCode) | ConversionRaised

  function MissingCode(m: FieldMapping): (code: RuleCode) {
    if IsRequired(m) then MissingRequiredField else MalformedRow
  }

  function ToText(c: Cell, m: FieldMapping): (r: Conversion) {
    if c.Nothing? || Show(c) == "" then Rejected(MissingCode(m)) else Stored(Text(Show(c)))
  }

  function ToAmount(lib: Library, c: Cell, m: FieldMapping): (r: Conversion) {
    if c.Nothing? then Rejected(MissingCode(m))
    else if c.Floating? then Rejected(InvalidAmount)
    else
      match lib.decimal(Show(c))
      case None => Rejected(InvalidAmount)
      case Some(NotFinite(_)) => Rejected(InvalidAmount)
      case Some(Finite(s, negative)) => Stored(Amount(Finite(s, negative)))
  }

  predicate Blank(s: string) { forall i :: 0 <= i < |s| ==> s[i] in {' ', '\t', '\n', '\r'} }

  /** An optional transaction date may be left out when a timestamp policy is set. */
  predicate MayLackDate(m: FieldMapping, policy: bool) { m.path == "transDate" && !m.required && policy }

  function ToInstant(lib: Library, c: Cell, m: FieldMapping, policy: bool): (r: Conversion) {
    if c.Nothing? then (if MayLackDate(m, policy) then Skipped else Rejected(MissingCode(m)))
    else if MayLackDate(m, policy) && c.Text? && Blank(c.text) then Skipped
    else
      match lib.instant(c)
      case None => Rejected(InvalidTimestamp)
      case Some(moment) => Stored(Instant(moment))
  }

  function ToMapped(c: Cell, m: FieldMapping): (r: Conversion) {
    if c.Nothing? || c == Text("") then Rejected(MissingCode(m))
    else if m.table.None? then Rejected(MalformedRow)
    else if Show(c) in m.table.value then Stored(Text(m.table.value[Show(c)]))
    else if "others" in m.table.value then Stored(Text(m.table.value["others"]))
    else Rejected(if m.path == "status" then InvalidStatus else MalformedRow)
  }

  function ToConstant(m: FieldMapping): (r: Conversion) {
    if m.constant.None? || m.constant.value == "" then Rejected(MissingCode(m))
    else Stored(Text(m.constant.value))
  }

  function Convert(lib: Library, c: Cell, m: FieldMapping, policy: bool): (r: Conversion) {
    match m.kind
    case AsString => ToText(c, m)
    case AsDecimal => ToAmount(lib, c, m)
    case AsDate => ToInstant(lib, c, m, policy)
    case AsMapping => if m.table.None? then Rejected(MalformedRow) else ToMapped(c, m)
    case AsConstant => ToConstant(m)
  }

  /** One mapping applied to one row, without the final check of amounts. */
  function Transformed(lib: Library, row: SourceRow, m: FieldMapping, policy: bool): (r: Conversion) {
    if m.kind.AsConstant? then ToConstant(m)
    else
      match Resolve(row, m)
      case Raised => ConversionRaised
      case Unresolved(_) => Rejected(MalformedRow)
      case Resolved(c) =>
        if c.Nothing? then (if MayLackDate(m, policy) then Skipped else Rejected(MissingCode(m)))
        else Convert(lib, c, m, policy)
  }

  function Evaluated(lib: Library, row: SourceRow, m: FieldMapping, policy: bool): (r: Conversion) {
    var r := Transformed(lib, row, m, policy);
    if m.path == "amount" && r.Stored? then ToAmount(lib, r.value, m) else r
  }

  // ---------------------------------------------------------------------------
  // A whole row
  // ---------------------------------------------------------------------------

  datatype Entry = Entry(path: string, value: Cell)

  /** A dictionary that keeps the order of first insertion. */
  type Data = seq<Entry>

  predicate Has(data: Data, path: string) { exists e :: e in data && e.path == path }

  function Put(data: Data, path: string, value: Cell): (d: Data) {
    if data == [] then [Entry(path, value)]
    else if data[0].path == path then [Entry(path, value)] + data[1..]
    else [data[0]] + Put(data[1..], path, value)
  }

  datatype FieldError = FieldError(code: RuleCode, path: string)

  datatype Result = Normalized(data: Data, errors: seq<FieldError>) | RowRaised

  function NormalizeUpTo(lib: Library, row: SourceRow, ms: seq<FieldMapping>, policy: bool, n: nat)
    : (r: Result)
    requires n <= |ms|
  {
    if n == 0 then Normalized([], [])
    else
      var before := NormalizeUpTo(lib, row, ms, policy, n - 1);
      var m := ms[n - 1];
      if before.RowRaised? then RowRaised
      else
        match Evaluated(lib, row, m, policy)
        case Stored(value) => Normalized(Put(before.data, m.path, value), before.errors)
        case Skipped => before
        case Rejected(code) => Normalized(before.data, before.errors + [FieldError(code, m.path)])
        case ConversionRaised => RowRaised
  }

  function NormalizedRow(lib: Library, row: SourceRow, ms: seq<FieldMapping>, policy: bool): (r: Result) {
    var r := NormalizeUpTo(lib, row, ms, policy, |ms|);
    if r.Normalized? && policy then
      Normalized(Put(r.data, "timestampBasis", Text("CANONICAL_UTC")), r.errors)
    else r
  }

  method Normalize(lib: Library, row: SourceRow, ms: seq<FieldMapping>, policy: bool) returns (r: Result)
    ensures r == NormalizedRow(lib, row, ms, policy)
  {
    var data: Data, errors: seq<FieldError> := [], [];
    for i := 0 to |ms|
      invariant NormalizeUpTo(lib, row, ms, policy, i) == Normalized(data, errors)
    {
      var m := ms[i];
      assert NormalizeUpTo(lib, row, ms, policy, i + 1) ==
        match Evaluated(lib, row, m, policy) {
          case Stored(value) => Normalized(Put(data, m.path, value), errors)
          case Skipped => Normalized(data, errors)
          case Rejected(code) => Normalized(data, errors + [FieldError(code, m.path)])
          case ConversionRaised => RowRaised
        };
      var converted := Evaluated(lib, row, m, policy);
      if converted.ConversionRaised? {
        RaisedStays(lib, row, ms, policy, i + 1, |ms|);
        return RowRaised;
      }
      if converted.Rejected? {
        errors := errors + [FieldError(converted.code, m.path)];
      } else if converted.Stored? {
        data := Put(data, m.path, converted.value);
      }
    }
    if policy {
      data := Put(data, "timestampBasis", Text("CANONICAL_UTC"));
    }
    return Normalized(data, errors);
  }

  lemma {:induction false} RaisedStays(lib: Library, row: SourceRow, ms: seq<FieldMapping>,
                                       policy: bool, i: nat, n: nat)
    requires i <= n <= |ms| && NormalizeUpTo(lib, row, ms, policy, i) == RowRaised
    ensures NormalizeUpTo(lib, row, ms, policy, n) == RowRaised
    decreases n - i
  {
    if i < n {
      RaisedStays(lib, row, ms, policy, i, n - 1);
    }
  }

  // ---------------------------------------------------------------------------
  // What normalization guarantees
  // ---------------------------------------------------------------------------

  predicate FiniteAmounts(data: Data) {
    forall e :: e in data && e.path == "amount" ==> e.value.Amount? && e.value.money.Finite?
  }

  lemma {:induction false} PutEntries(data: Data, path: string, value: Cell)
    ensures forall e :: e in Put(data, path, value) ==> e == Entry(path, value) || e in data
    ensures Entry(path, value) in Put(data, path, value)
    ensures forall q :: Has(Put(data, path, value), q) <==> Has(data, q) || q == path
  {
    if data != [] && data[0].path != path {
      var rest := Put(data[1..], path, value);
      PutEntries(data[1..], path, value);
      assert data == [data[0]] + data[1..];
      forall q ensures Has([data[0]] + rest, q) <==> Has(data, q) || q == path {
        HasCons(data[0], rest, q);
        HasCons(data[0], data[1..], q);
      }
    } else if data != [] {
      assert data == [data[0]] + data[1..];
      forall q ensures Has([Entry(path, value)] + data[1..], q) <==> Has(data, q) || q == path {
        HasCons(Entry(path, value), data[1..], q);
        HasCons(data[0], data[1..], q);
      }
    } else {
      assert Entry(path, value) in [Entry(path, value)];
    }
  }

  lemma {:induction false} HasCons(e: Entry, rest: Data, q: string)
    ensures Has([e] + rest, q) <==> e.path == q || Has(rest, q)
  {
    assert e in [e] + rest;
    forall d | d in rest ensures d in [e] + rest {}
  }

  /** An amount that makes it into a normalized row is a finite decimal, whatever the type of
      the mapping it came through. */
  lemma {:induction false} AmountsAreFinite(lib: Library, row: SourceRow, ms: seq<FieldMapping>,
                                            policy: bool, n: nat)
    requires n <= |ms|
    ensures var r := NormalizeUpTo(lib, row, ms, policy, n);
      r.Normalized? ==> FiniteAmounts(r.data)
  {
    if n > 0 {
      AmountsAreFinite(lib, row, ms, policy, n - 1);
      var before := NormalizeUpTo(lib, row, ms, policy, n - 1);
      var converted := Evaluated(lib, row, ms[n - 1], policy);
      if before.Normalized? && converted.Stored? {
        PutEntries(before.data, ms[n - 1].path, converted.value);
      }
    }
  }

  /** Every mapping leaves a value or an error, except an optional transaction date that may
      be left out. */
  lemma {:induction false} EveryMappingAccounted(lib: Library, row: SourceRow,
                                                 ms: seq<FieldMapping>, policy: bool, n: nat,
                                                 i: nat)
    requires i < n <= |ms| && NormalizeUpTo(lib, row, ms, policy, n).Normalized?
    ensures var r := NormalizeUpTo(lib, row, ms, policy, n);
      || Has(r.data, ms[i].path)
      || (exists e :: e in r.errors && e.path == ms[i].path)
      || MayLackDate(ms[i], policy)
  {
    var before, m := NormalizeUpTo(lib, row, ms, policy, n - 1), ms[n - 1];
    var converted := Evaluated(lib, row, m, policy);
    var after := NormalizeUpTo(lib, row, ms, policy, n);
    if converted.Stored? {
      PutEntries(before.data, m.path, converted.value);
    }
    if i < n - 1 {
      EveryMappingAccounted(lib, row, ms, policy, n - 1, i);
      if e :| e in before.errors && e.path == ms[i].path {
        assert e in after.errors;
      }
    } else if converted.Rejected? {
      assert FieldError(converted.code, m.path) in after.errors;
    } else if converted.Skipped? {
      SkippedIsOptionalDate(lib, row, m, policy);
    }
  }

  lemma {:induction false} SkippedIsOptionalDate(lib: Library, row: SourceRow, m: FieldMapping,
                                                 policy: bool)
    requires Evaluated(lib, row, m, policy) == Skipped
    ensures MayLackDate(m, policy)
  {
  }
}
