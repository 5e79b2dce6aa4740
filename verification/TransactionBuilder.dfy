/** The fast and the canonical builder over one normalized row. */
module TransactionBuilder {
  import opened Contracts
  import opened Quality
  import opened Mapping
  import opened Normalizer

  // ---------------------------------------------------------------------------
  // Extra fields
  // ---------------------------------------------------------------------------

  const CANONICAL_KEYS: set<string> :=
    {"id", "trace", "amount", "currency", "status", "transDate", "timestampBasis"}

  datatype Extra = Leaf(value: Cell) | Group(fields: map<string, Cell>)

  type Extras = map<string, Extra>

  /** Where a path ends up among the extra fields. */
  datatype Place = Nowhere | Top(name: string) | Nested(outer: string, inner: string)

  function FirstDot(s: string): (i: Option<nat>)
    ensures i.Some? ==> i.value < |s| && s[i.value] == '.'
  {
    if s == "" then None
    else if s[0] == '.' then Some(0)
    else
      match FirstDot(s[1..])
      case None => None
      case Some(i) => Some(i + 1)
  }

  function PlaceOf(path: string): (p: Place) {
    if path in CANONICAL_KEYS then Nowhere
    else
      match FirstDot(path)
      case None => Top(path)
      case Some(i) =>
        if path[..i] == "extra" then Top(path[i + 1..]) else Nested(path[..i], path[i + 1..])
  }

  /** `None` when a nested path meets a plain value, which cannot hold it. */
  function AddExtra(extras: Extras, e: Entry): (r: Option<Extras>) {
    match PlaceOf(e.path)
    case Nowhere => Some(extras)
    case Top(name) => Some(extras[name := Leaf(e.value)])
    case Nested(outer, inner) =>
      if outer !in extras then Some(extras[outer := Group(map[inner := e.value])])
      else if extras[outer].Leaf? then None
      else Some(extras[outer := Group(extras[outer].fields[inner := e.value])])
  }

  function ExtractExtra(data: Data): (r: Option<Extras>) {
    if data == [] then Some(map[])
    else
      match ExtractExtra(data[..|data| - 1])
      case None => None
      case Some(extras) => AddExtra(extras, data[|data| - 1])
  }

  function Lookup(extras: Extras, p: Place): (value: Option<Cell>) {
    match p
    case Nowhere => None
    case Top(name) =>
      if name in extras && extras[name].Leaf? then Some(extras[name].value) else None
    case Nested(outer, inner) =>
      if outer in extras && extras[outer].Group? && inner in extras[outer].fields then
        Some(extras[outer].fields[inner])
      else None
  }

  /** The name at the top level that a place uses. */
  function Outer(p: Place): (name: Option<string>) {
    match p
    case Nowhere => None
    case Top(name) => Some(name)
    case Nested(outer, _) => Some(outer)
  }

  /** Two paths that share a top-level name without being two parts of one group. */
  predicate Collide(p: Place, q: Place) {
    && Outer(p).Some? && Outer(p) == Outer(q)
    && !(p.Nested? && q.Nested? && p.inner != q.inner)
  }

  ghost predicate Apart(data: Data) {
    forall i, j :: 0 <= i < j < |data| ==> !Collide(PlaceOf(data[i].path), PlaceOf(data[j].path))
  }

  ghost predicate Found(data: Data, extras: Extras) {
    forall e :: e in data && PlaceOf(e.path) != Nowhere ==>
      Lookup(extras, PlaceOf(e.path)) == Some(e.value)
  }

  ghost predicate Explained(data: Data, extras: Extras) {
    forall p {:trigger Lookup(extras, p)} :: Lookup(extras, p).Some? ==> FromSome(data, p)
  }

  ghost predicate FromSome(data: Data, p: Place) { exists e :: e in data && PlaceOf(e.path) == p }

  ghost predicate Holds(data: Data, extras: Extras) { Found(data, extras) && Explained(data, extras) }

  lemma {:induction false} ApartFrom(data: Data, e: Entry)
    requires Apart(data + [e])
    ensures Apart(data) && forall d :: d in data ==> !Collide(PlaceOf(d.path), PlaceOf(e.path))
  {
    var all := data + [e];
    forall i, j | 0 <= i < j < |data| ensures !Collide(PlaceOf(data[i].path), PlaceOf(data[j].path)) {
      assert all[i] == data[i] && all[j] == data[j];
    }
    forall d | d in data ensures !Collide(PlaceOf(d.path), PlaceOf(e.path)) {
      var i :| 0 <= i < |data| && data[i] == d;
      assert all[i] == d && all[|data|] == e;
    }
  }

  /** A plain value at a group's name would come from a colliding path. */
  lemma {:induction false} NothingInTheWay(data: Data, extras: Extras, place: Place)
    requires Explained(data, extras)
    requires forall d :: d in data ==> !Collide(PlaceOf(d.path), place)
    requires place.Nested? && place.outer in extras
    ensures extras[place.outer].Group?
  {
    var top := Top(place.outer);
    assert Collide(top, place);
    assert Lookup(extras, top).Some? ==> FromSome(data, top);
  }

  lemma {:induction false} LookupAfter(extras: Extras, e: Entry, p: Place)
    requires AddExtra(extras, e).Some?
    ensures var after, place := AddExtra(extras, e).value, PlaceOf(e.path);
      && (p == place && p != Nowhere ==> Lookup(after, p) == Some(e.value))
      && (p != place && !Collide(p, place) ==> Lookup(after, p) == Lookup(extras, p))
      && (p != place && Lookup(after, p).Some? ==> Lookup(after, p) == Lookup(extras, p))
  {
  }

  lemma {:induction false} HoldsStep(data: Data, extras: Extras, e: Entry)
    requires Holds(data, extras) && Apart(data + [e])
    ensures AddExtra(extras, e).Some? && Holds(data + [e], AddExtra(extras, e).value)
  {
    var place, all := PlaceOf(e.path), data + [e];
    ApartFrom(data, e);
    if place.Nested? && place.outer in extras {
      NothingInTheWay(data, extras, place);
    }
    var after := AddExtra(extras, e).value;
    forall d | d in all && PlaceOf(d.path) != Nowhere
      ensures Lookup(after, PlaceOf(d.path)) == Some(d.value)
    {
      LookupAfter(extras, e, PlaceOf(d.path));
    }
    forall p | Lookup(after, p).Some? ensures FromSome(all, p) {
      LookupAfter(extras, e, p);
      if p == place {
        assert e in all;
      } else {
        assert FromSome(data, p);
        var d :| d in data && PlaceOf(d.path) == p;
        assert d in all;
      }
    }
  }

  /** Unless paths collide, every extra value is found again at the place of its path, and
      nothing else is there. */
  lemma {:induction false} ExtrasAreLossless(data: Data)
    requires Apart(data)
    ensures ExtractExtra(data).Some? && Holds(data, ExtractExtra(data).value)
  {
    if data != [] {
      var n := |data| - 1;
      assert data == data[..n] + [data[n]];
      ApartFrom(data[..n], data[n]);
      ExtrasAreLossless(data[..n]);
      HoldsStep(data[..n], ExtractExtra(data[..n]).value, data[n]);
    }
  }

  lemma {:induction false} FromSomeSnoc(data: Data, e: Entry, p: Place)
    ensures FromSome(data + [e], p) <==> FromSome(data, p) || PlaceOf(e.path) == p
  {
    assert e in data + [e];
    forall d | d in data ensures d in data + [e] {}
  }

  /** The plain values at the top level are those of plain paths, even where groups give way. */
  lemma {:induction false} LeavesExactly(data: Data, name: string)
    requires ExtractExtra(data).Some?
    ensures var extras := ExtractExtra(data).value;
      name in extras && extras[name].Leaf? <==> FromSome(data, Top(name))
  {
    if data != [] {
      var n := |data| - 1;
      LeavesExactly(data[..n], name);
      assert data == data[..n] + [data[n]];
      FromSomeSnoc(data[..n], data[n], Top(name));
    }
  }

  /** Entry `j` is nested under a name that an earlier entry made a plain value. */
  ghost predicate BlockedAt(data: Data, j: nat)
    requires j < |data|
  {
    var p := PlaceOf(data[j].path);
    p.Nested? && FromSome(data[..j], Top(p.outer))
  }

  /** The extraction raises exactly when a nested path comes after a plain value of its
      group's name. */
  lemma {:induction false} ExtractionRaisesExactly(data: Data)
    ensures ExtractExtra(data).None? <==> exists j: nat :: j < |data| && BlockedAt(data, j)
  {
    if data != [] {
      var n := |data| - 1;
      var init := data[..n];
      ExtractionRaisesExactly(init);
      forall j: nat | j < n ensures BlockedAt(init, j) <==> BlockedAt(data, j) {
        assert init[..j] == data[..j];
      }
      if ExtractExtra(init).Some? && PlaceOf(data[n].path).Nested? {
        LeavesExactly(init, PlaceOf(data[n].path).outer);
      }
      if j: nat :| j < n && BlockedAt(init, j) {
        assert BlockedAt(data, j);
      }
      if ExtractExtra(init).Some? && ExtractExtra(data).None? {
        assert BlockedAt(data, n);
      }
    }
  }

  // ---------------------------------------------------------------------------
  // The builders
  // ---------------------------------------------------------------------------

  datatype Status = SUCCESS | FAILED | PENDING | REVERSED

  function StatusName(s: Status): (name: string) {
    match s
    case SUCCESS => "SUCCESS"
    case FAILED => "FAILED"
    case PENDING => "PENDING"
    case REVERSED => "REVERSED"
  }

  function ToStatus(c: Cell): (s: Option<Status>) {
    if c == Text("SUCCESS") then Some(SUCCESS)
    else if c == Text("FAILED") then Some(FAILED)
    else if c == Text("PENDING") then Some(PENDING)
    else if c == Text("REVERSED") then Some(REVERSED)
    else None
  }

  datatype Fast = Fast(
    id: string, trace: Option<string>, status: Cell, amount: Cell, currency: string,
    transDate: Option<Cell>, basis: Cell, extra: Extras)

  datatype Canonical = Canonical(
    id: string, trace: Option<string>, status: Status, amount: Money, currency: string,
    transDate: Option<Moment>, basis: string, extra: Extras)

  datatype Build<T> = Built(txn: T) | Refused(errors: seq<FieldError>) | BuildRaised

  function Get(data: Data, path: string): (value: Option<Cell>) {
    if data == [] then None
    else if data[0].path == path then Some(data[0].value)
    else Get(data[1..], path)
  }

  function MissingFields(data: Data): (errors: seq<FieldError>) {
    (if Get(data, "id").None? then [FieldError(MissingRequiredField, "id")] else [])
    + (if Get(data, "amount").None? then [FieldError(MissingRequiredField, "amount")] else [])
    + (if Get(data, "currency").None? then [FieldError(MissingRequiredField, "currency")] else [])
    + (if Get(data, "status").None? then [FieldError(MissingRequiredField, "status")] else [])
  }

  predicate AmountOk(c: Cell) { c.Amount? && c.money.Finite? }

  lemma {:induction false} NothingMissing(data: Data)
    ensures MissingFields(data) == [] <==>
      Get(data, "id").Some? && Get(data, "amount").Some? && Get(data, "currency").Some?
      && Get(data, "status").Some?
  {
  }

  function BuildFast(data: Data, errors: seq<FieldError>): (b: Build<Fast>) {
    NothingMissing(data);
    if MissingFields(data) != [] then Refused(errors + MissingFields(data))
    else if ToStatus(Get(data, "status").value).None? then
      Refused(errors + [FieldError(InvalidStatus, "status")])
    else if !AmountOk(Get(data, "amount").value) then
      Refused(errors + [FieldError(InvalidAmount, "amount")])
    else
      match ExtractExtra(data)
      case None => BuildRaised
      case Some(extra) =>
        var trace, basis := Get(data, "trace"), Get(data, "timestampBasis");
        Built(Fast(
          Show(Get(data, "id").value), if trace.Some? then Some(Show(trace.value)) else None,
          Get(data, "status").value, Get(data, "amount").value, Show(Get(data, "currency").value),
          Get(data, "transDate"), if basis.Some? then basis.value else Text("LEGACY_STORED"), extra))
  }

  /** The model class coerces a date that is not an instant, or rejects it by raising, and
      takes text only for the basis. */
  function Construct(lib: Library, id: string, trace: Option<string>, status: Status, amount: Money,
                     currency: string, transDate: Option<Cell>, basis: Cell, extra: Extras)
    : (b: Build<Canonical>)
  {
    var date :=
      match transDate
      case None => Some(None)
      case Some(Instant(m)) => Some(Some(m))
      case Some(c) => if lib.coerced(c).Some? then Some(lib.coerced(c)) else None;
    if date.None? || !basis.Text? then BuildRaised
    else Built(Canonical(id, trace, status, amount, currency, date.value, basis.text, extra))
  }

  function BuildCanonical(lib: Library, data: Data, errors: seq<FieldError>): (b: Build<Canonical>) {
    NothingMissing(data);
    if MissingFields(data) != [] then Refused(errors + MissingFields(data))
    else
      match ToStatus(Get(data, "status").value)
      case None => Refused(errors + [FieldError(InvalidStatus, "status")])
      case Some(status) =>
        if !AmountOk(Get(data, "amount").value) then
          Refused(errors + [FieldError(InvalidAmount, "amount")])
        else
          match ExtractExtra(data)
          case None => BuildRaised
          case Some(extra) =>
            var trace, basis := Get(data, "trace"), Get(data, "timestampBasis");
            Construct(
              lib, Show(Get(data, "id").value), if trace.Some? then Some(Show(trace.value)) else None,
              status, Get(data, "amount").value.money, Show(Get(data, "currency").value),
              Get(data, "transDate"), if basis.Some? then basis.value else Text("LEGACY_STORED"), extra)
  }

  /** The two transactions say the same. */
  predicate Same(f: Fast, c: Canonical) {
    && f.id == c.id && f.trace == c.trace && f.currency == c.currency && f.extra == c.extra
    && f.status == Text(StatusName(c.status)) && f.amount == Amount(c.amount)
    && f.transDate == (if c.transDate.Some? then Some(Instant(c.transDate.value)) else None)
    && f.basis == Text(c.basis)
  }

  predicate InstantOrAbsent(c: Option<Cell>) { c.None? || c.value.Instant? }

  predicate TextOrAbsent(c: Option<Cell>) { c.None? || c.value.Text? }

  /** The fast builder refuses exactly what the canonical one refuses, with the same errors.
      Where it builds, the canonical one builds the same transaction if and only if the date is
      an instant or absent and the timestamp basis is text or absent. */
  lemma {:induction false} FastRefinesCanonical(lib: Library, data: Data, errors: seq<FieldError>)
    ensures var f, c := BuildFast(data, errors), BuildCanonical(lib, data, errors);
      && (forall es :: f == Refused(es) <==> c == Refused(es))
      && (f.BuildRaised? ==> c.BuildRaised?)
      && (f.Built? ==>
            ((c.Built? && Same(f.txn, c.txn)) <==>
             (InstantOrAbsent(Get(data, "transDate")) && TextOrAbsent(Get(data, "timestampBasis")))))
  {
    NothingMissing(data);
  }

  lemma {:induction false} GetAt(data: Data, i: nat)
    requires i < |data| && forall j :: 0 <= j < i ==> data[j].path != data[i].path
    ensures Get(data, data[i].path) == Some(data[i].value)
  {
    if i > 0 {
      assert forall j :: 0 <= j < i - 1 ==> data[1..][j].path == data[j + 1].path;
      GetAt(data[1..], i - 1);
    }
  }

  lemma {:induction false} OtherBasisRaises(lib: Library, data: Data)
    requires BuildFast(data, []).Built? && !TextOrAbsent(Get(data, "timestampBasis"))
    ensures BuildCanonical(lib, data, []).BuildRaised?
  {
    NothingMissing(data);
  }

  /** A timestamp basis mapped as a decimal parts the builders: the fast one keeps a value that
      the canonical one rejects by raising. */
  lemma {:induction false} DecimalBasisPartsBuilders(lib: Library)
    ensures var data := [Entry("id", Text("1")), Entry("amount", Amount(Finite("5", false))),
                         Entry("currency", Text("VND")), Entry("status", Text("SUCCESS")),
                         Entry("timestampBasis", Amount(Finite("1", false)))];
      BuildFast(data, []).Built? && BuildCanonical(lib, data, []).BuildRaised?
  {
    var data := [Entry("id", Text("1")), Entry("amount", Amount(Finite("5", false))),
                 Entry("currency", Text("VND")), Entry("status", Text("SUCCESS")),
                 Entry("timestampBasis", Amount(Finite("1", false)))];
    GetAt(data, 0);
    GetAt(data, 1);
    GetAt(data, 2);
    GetAt(data, 3);
    GetAt(data, 4);
    AllCanonicalMeansNoExtra(data);
    NothingMissing(data);
    OtherBasisRaises(lib, data);
  }

  lemma {:induction false} AllCanonicalMeansNoExtra(data: Data)
    requires forall e :: e in data ==> e.path in CANONICAL_KEYS
    ensures ExtractExtra(data) == Some(map[])
  {
    if data != [] {
      AllCanonicalMeansNoExtra(data[..|data| - 1]);
    }
  }

  // ---------------------------------------------------------------------------
  // Normalized rows
  // ---------------------------------------------------------------------------

  /** Dates are mapped as dates, and a mapped timestamp basis as some kind of text. */
  predicate WellTyped(m: FieldMapping) {
    && (m.path == "transDate" ==> m.kind.AsDate?)
    && (m.path == "timestampBasis" ==> m.kind in {AsString, AsConstant, AsMapping})
  }

  predicate TypedEntry(e: Entry) {
    && (e.path == "transDate" ==> e.value.Instant?)
    && (e.path == "timestampBasis" ==> e.value.Text?)
  }

  lemma {:induction false} ConversionIsTyped(lib: Library, row: SourceRow, m: FieldMapping,
                                             policy: bool)
    requires WellTyped(m) && Evaluated(lib, row, m, policy).Stored?
    ensures TypedEntry(Entry(m.path, Evaluated(lib, row, m, policy).value))
  {
  }

  lemma {:induction false} RowsAreTyped(lib: Library, row: SourceRow, ms: seq<FieldMapping>,
                                        policy: bool, n: nat)
    requires n <= |ms| && forall m :: m in ms ==> WellTyped(m)
    ensures var r := NormalizeUpTo(lib, row, ms, policy, n);
      r.Normalized? ==> forall e :: e in r.data ==> TypedEntry(e)
  {
    if n > 0 {
      RowsAreTyped(lib, row, ms, policy, n - 1);
      var before := NormalizeUpTo(lib, row, ms, policy, n - 1);
      var converted := Evaluated(lib, row, ms[n - 1], policy);
      if before.Normalized? && converted.Stored? {
        ConversionIsTyped(lib, row, ms[n - 1], policy);
        PutEntries(before.data, ms[n - 1].path, converted.value);
      }
    }
  }

  lemma {:induction false} GetIsMember(data: Data, path: string)
    requires Get(data, path).Some?
    ensures Entry(path, Get(data, path).value) in data
  {
    if data[0].path != path {
      GetIsMember(data[1..], path);
    }
  }

  /** On every row, under every well-typed config, both builders refuse with the same errors,
      both raise, or both build the same transaction, whose amount is a finite decimal. */
  lemma {:induction false} BuildersAgreeOnNormalizedRows(
    lib: Library, row: SourceRow, ms: seq<FieldMapping>, policy: bool, errors: seq<FieldError>)
    requires NormalizedRow(lib, row, ms, policy).Normalized?
    requires forall m :: m in ms ==> WellTyped(m)
    ensures var data := NormalizedRow(lib, row, ms, policy).data;
      var f, c := BuildFast(data, errors), BuildCanonical(lib, data, errors);
      match f
      case Refused(es) => c == Refused(es)
      case BuildRaised => c == BuildRaised
      case Built(txn) => c.Built? && Same(txn, c.txn) && c.txn.amount.Finite?
  {
    var r := NormalizeUpTo(lib, row, ms, policy, |ms|);
    var data := NormalizedRow(lib, row, ms, policy).data;
    RowsAreTyped(lib, row, ms, policy, |ms|);
    PutEntries(r.data, "timestampBasis", Text("CANONICAL_UTC"));
    assert forall e :: e in data ==> TypedEntry(e);
    if Get(data, "transDate").Some? {
      GetIsMember(data, "transDate");
    }
    if Get(data, "timestampBasis").Some? {
      GetIsMember(data, "timestampBasis");
    }
    FastRefinesCanonical(lib, data, errors);
    NothingMissing(data);
  }
}
