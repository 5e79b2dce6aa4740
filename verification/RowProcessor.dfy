/** One source row to one row outcome: normalize, build, validate, derive the ingestion key. */
module RowProcessor {
  import opened Contracts
  import opened Quality
  import opened Mapping
  import opened Normalizer
  import opened TransactionBuilder

  /** What the validator looks at, in a fast dictionary or in a model instance. */
  datatype View = View(id: string, currency: string, amount: Cell, status: Cell, transDate: Option<Cell>)

  function FastView(f: Fast): (v: View) {
    View(f.id, f.currency, f.amount, f.status, f.transDate)
  }

  function CanonicalView(c: Canonical): (v: View) {
    View(c.id, c.currency, Amount(c.amount), Text(StatusName(c.status)),
         if c.transDate.Some? then Some(Instant(c.transDate.value)) else None)
  }

  // ---------------------------------------------------------------------------
  // Validation
  // ---------------------------------------------------------------------------

  function RequiredErrors(v: View): (errors: seq<FieldError>) {
    (if Blank(v.id) then [FieldError(MissingRequiredField, "id")] else [])
    + (if Blank(v.currency) then [FieldError(MissingRequiredField, "currency")] else [])
    + (if v.status.Text? && Blank(v.status.text) then [FieldError(MissingRequiredField, "status")] else [])
  }

  function AmountErrors(v: View): (errors: seq<FieldError>) {
    if !AmountOk(v.amount) then [FieldError(InvalidAmount, "amount")]
    else if v.amount.money.negative then [FieldError(NegativeAmount, "amount")]
    else []
  }

  function DateErrors(v: View): (errors: seq<FieldError>) {
    if InstantOrAbsent(v.transDate) then [] else [FieldError(InvalidTimestamp, "transDate")]
  }

  function StatusErrors(v: View): (errors: seq<FieldError>) {
    if (v.status.Text? && Blank(v.status.text)) || ToStatus(v.status).Some? then []
    else [FieldError(InvalidStatus, "status")]
  }

  function ValidationErrors(v: View): (errors: seq<FieldError>) {
    RequiredErrors(v) + AmountErrors(v) + DateErrors(v) + StatusErrors(v)
  }

  // ---------------------------------------------------------------------------
  // Processing
  // ---------------------------------------------------------------------------

  /** The id, else the trace; without either, deriving a key raises. */
  function DeriveKey(id: string, trace: Option<string>): (key: Option<string>) {
    if id != "" then Some(id)
    else if trace.Some? && trace.value != "" then trace
    else None
  }

  /** The partner data of the container that is persisted, in the fast builder's terms. */
  function PartnerData(c: Canonical): (f: Fast) {
    Fast(c.id, c.trace, Text(StatusName(c.status)), Amount(c.amount), c.currency,
         if c.transDate.Some? then Some(Instant(c.transDate.value)) else None, Text(c.basis), c.extra)
  }

  datatype Processed =
    | Accepted(key: string, container: Fast)
    | Refusal(errors: seq<FieldError>)
    | ProcessingRaised

  function Finish(view: View, trace: Option<string>, container: Fast): (p: Processed) {
    if ValidationErrors(view) != [] then Refusal(ValidationErrors(view))
    else
      match DeriveKey(view.id, trace)
      case Some(key) => Accepted(key, container)
      case None => ProcessingRaised
  }

  function Process(lib: Library, row: SourceRow, ms: seq<FieldMapping>, policy: bool, fast: bool)
    : (p: Processed)
  {
    match NormalizedRow(lib, row, ms, policy)
    case RowRaised => ProcessingRaised
    case Normalized(data, errors) =>
      if errors != [] then Refusal(errors)
      else if fast then
        match BuildFast(data, [])
        case Refused(es) => Refusal(es)
        case BuildRaised => ProcessingRaised
        case Built(txn) => Finish(FastView(txn), txn.trace, txn)
      else
        match BuildCanonical(lib, data, [])
        case Refused(es) => Refusal(es)
        case BuildRaised => ProcessingRaised
        case Built(txn) => Finish(CanonicalView(txn), txn.trace, PartnerData(txn))
  }

  // ---------------------------------------------------------------------------
  // Properties
  // ---------------------------------------------------------------------------

  /** Validation settles the key: a row that passes it always has a key, and the key is its id.
      The trace is never used and deriving a key never raises. */
  lemma {:induction false} KeyIsTheId(view: View, trace: Option<string>, container: Fast)
    ensures Finish(view, trace, container) ==
      if ValidationErrors(view) == [] then Accepted(view.id, container)
      else Refusal(ValidationErrors(view))
    ensures Finish(view, trace, container).Accepted? ==>
      !Blank(view.id) && !view.amount.money.negative
  {
    if ValidationErrors(view) == [] {
      assert RequiredErrors(view) == [] && AmountErrors(view) == [];
      assert !Blank(view.id);
    }
  }

  /** Fast mode does not change what becomes of a row: under a well-typed config the outcome, the
      errors, the ingestion key and the partner data that are persisted are the same in both
      modes. */
  lemma {:induction false} FastModeIsInvisible(lib: Library, row: SourceRow, ms: seq<FieldMapping>,
                                               policy: bool)
    requires forall m :: m in ms ==> WellTyped(m)
    ensures Process(lib, row, ms, policy, true) == Process(lib, row, ms, policy, false)
  {
    var r := NormalizedRow(lib, row, ms, policy);
    if r.Normalized? && r.errors == [] {
      BuildersAgreeOnNormalizedRows(lib, row, ms, policy, []);
      var f, c := BuildFast(r.data, []), BuildCanonical(lib, r.data, []);
      if f.Built? {
        assert FastView(f.txn) == CanonicalView(c.txn) && f.txn == PartnerData(c.txn);
      }
    }
  }

  lemma {:induction false} DateErrorShows(v: View)
    ensures FieldError(InvalidTimestamp, "transDate") in ValidationErrors(v)
      <==> !InstantOrAbsent(v.transDate)
  {
    if !InstantOrAbsent(v.transDate) {
      assert FieldError(InvalidTimestamp, "transDate") in DateErrors(v);
    }
  }

  /** A date that is not mapped as a date parts the modes wherever the model class can read it:
      the fast mode refuses the row for its date, the canonical one does not. */
  lemma {:induction false} OtherDatesPartModes(lib: Library, data: Data)
    requires BuildFast(data, []).Built? && BuildCanonical(lib, data, []).Built?
    requires !InstantOrAbsent(Get(data, "transDate"))
    ensures var f, c := FastView(BuildFast(data, []).txn), CanonicalView(BuildCanonical(lib, data, []).txn);
      && FieldError(InvalidTimestamp, "transDate") in ValidationErrors(f)
      && FieldError(InvalidTimestamp, "transDate") !in ValidationErrors(c)
  {
    var f, c := FastView(BuildFast(data, []).txn), CanonicalView(BuildCanonical(lib, data, []).txn);
    assert f.transDate == Get(data, "transDate") by {
      NothingMissing(data);
    }
    DateErrorShows(f);
    DateErrorShows(c);
  }
}
