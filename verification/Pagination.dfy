/** The cursor-following fetch loop: page budget, repeated-cursor detection, single-unit mode
    and resumption from a checkpoint. */
module Pagination {
  import opened Sequences
  import opened Contracts

  // ---------------------------------------------------------------------------
  // One page
  // ---------------------------------------------------------------------------

  datatype Json =
    | Null
    | Bool(b: bool)
    | Int(n: int)
    | Float(text: string)
    | Str(s: string)
    | Arr(elements: seq<Json>)
    | Obj(fields: map<string, Json>)

  /** Paths are split at their dots; an absent path is empty. */
  datatype Config = Config(
    scope: string, sendsPage: bool, sendsCursor: bool, itemsPath: seq<string>,
    cursorPath: seq<string>, maxPages: nat)

  datatype Query = Query(page: Option<int>, cursor: Option<string>)

  /** What a request comes to. `body` is absent when it is not JSON. */
  datatype Answer = TimedOut | NetworkError | StorageDenied | Answered(status: int, body: Option<Json>)

  /** The remote is a fixed function of what a query carries. */
  type Remote = Query -> Answer

  datatype ErrorCode =
    | FetchTimeout | FetchNetworkError | FetchStorageDenied | FetchHttp4xx | FetchHttp5xx
    | ParseError | CursorRepeated

  datatype Page = Page(items: seq<Json>, next: Option<string>)

  datatype Turn = Got(page: Page) | Lost(code: ErrorCode)

  function Digits(n: nat): (s: string) {
    (if n < 10 then "" else Digits(n / 10)) + ["0123456789"[n % 10]]
  }

  function Decimal(n: int): (s: string) { if n < 0 then "-" + Digits(-n) else Digits(n) }

  /** Follow a dotted path; missing is told apart from empty. */
  function Resolve(payload: Json, path: seq<string>): (value: Option<Json>) {
    if path == [] then Some(payload)
    else if payload.Obj? && path[0] in payload.fields then Resolve(payload.fields[path[0]], path[1..])
    else None
  }

  function Extract(payload: Json, path: seq<string>): (value: Option<Json>) {
    if path != [] then Resolve(payload, path)
    else if payload.Obj? && "items" in payload.fields then Some(payload.fields["items"])
    else if payload.Arr? then Some(payload)
    else None
  }

  /** A cursor is a string or an integer, and a boolean counts as an integer. */
  function AsCursor(value: Option<Json>): (cursor: Option<Option<string>>) {
    match value
    case None => Some(None)
    case Some(Null) => Some(None)
    case Some(Str(s)) => Some(Some(s))
    case Some(Int(n)) => Some(Some(Decimal(n)))
    case Some(Bool(b)) => Some(Some(if b then "True" else "False"))
    case Some(_) => None
  }

  function ParsePage(payload: Json, config: Config): (page: Option<Page>) {
    var items := Extract(payload, config.itemsPath);
    var next := AsCursor(Extract(payload, config.cursorPath));
    if items.Some? && items.value.Arr? && next.Some? then
      Some(Page(items.value.elements, next.value))
    else None
  }

  function Request(config: Config, page: int, cursor: Option<string>): (q: Query) {
    Query(if config.sendsPage then Some(page) else None,
          if config.sendsCursor then cursor else None)
  }

  function Take(remote: Remote, config: Config, page: int, cursor: Option<string>): (t: Turn) {
    match remote(Request(config, page, cursor))
    case TimedOut => Lost(FetchTimeout)
    case NetworkError => Lost(FetchNetworkError)
    case StorageDenied => Lost(FetchStorageDenied)
    case Answered(status, body) =>
      if !(200 <= status < 300) then Lost(if 400 <= status < 500 then FetchHttp4xx else FetchHttp5xx)
      else if body.None? then Lost(ParseError)
      else
        match ParsePage(body.value, config)
        case None => Lost(ParseError)
        case Some(p) => Got(p)
  }

  /** An empty cursor ends the stream like an absent one. */
  predicate HasMore(p: Page) { p.next.Some? && p.next.value != "" }

  // ---------------------------------------------------------------------------
  // The loop
  // ---------------------------------------------------------------------------

  /** The identity that is hashed into a source unit key. */
  datatype UnitKey = UnitKey(scope: string, page: int, cursorBefore: Option<string>)

  datatype UnitStatus = Fetched | Failed(code: ErrorCode)

  datatype Unit = Unit(
    key: UnitKey, page: int, cursorBefore: Option<string>, status: UnitStatus, itemCount: nat,
    cursorAfter: Option<string>, hasMore: bool)

  function FetchedUnit(config: Config, page: int, cursor: Option<string>, p: Page): (u: Unit) {
    Unit(UnitKey(config.scope, page, cursor), page, cursor, Fetched, |p.items|, p.next, HasMore(p))
  }

  function FailedUnit(config: Config, page: int, cursor: Option<string>, code: ErrorCode): (u: Unit) {
    Unit(UnitKey(config.scope, page, cursor), page, cursor, UnitStatus.Failed(code), 0, None, false)
  }

  datatype FetchError = BadStartPage | UnitFailed(code: ErrorCode) | MaxPagesExceeded

  datatype Fetch =
    | Success(units: seq<Unit>, items: seq<Json>)
    | Failure(units: seq<Unit>, error: FetchError)

  function Prepend(units: seq<Unit>, items: seq<Json>, f: Fetch): (g: Fetch) {
    match f
    case Success(us, xs) => Success(units + us, items + xs)
    case Failure(us, e) => Failure(units + us, e)
  }

  /** What is left of a fetch at `page` with `budget` pages to go. */
  function FetchFrom(remote: Remote, config: Config, page: int, cursor: Option<string>,
                     seen: set<string>, budget: nat)
    : (f: Fetch)
    decreases budget
  {
    if budget == 0 then Failure([], MaxPagesExceeded)
    else
      match Take(remote, config, page, cursor)
      case Lost(code) => Failure([FailedUnit(config, page, cursor, code)], UnitFailed(code))
      case Got(p) =>
        var u := FetchedUnit(config, page, cursor, p);
        if !HasMore(p) then Success([u], p.items)
        else if p.next.value in seen then
          Failure([u.(status := UnitStatus.Failed(CursorRepeated))], UnitFailed(CursorRepeated))
        else
          Prepend([u], p.items,
                  FetchFrom(remote, config, page + 1, p.next, seen + {p.next.value}, budget - 1))
  }

  /** A single-unit fetch: one page, whether or not there are more. */
  function FetchOne(remote: Remote, config: Config, page: int, cursor: Option<string>): (f: Fetch) {
    if config.maxPages == 0 then Failure([], MaxPagesExceeded)
    else
      match Take(remote, config, page, cursor)
      case Lost(code) => Failure([FailedUnit(config, page, cursor, code)], UnitFailed(code))
      case Got(p) => Success([FetchedUnit(config, page, cursor, p)], p.items)
  }

  function FetchAll(remote: Remote, config: Config, page: int, cursor: Option<string>): (f: Fetch) {
    FetchFrom(remote, config, page, cursor, {}, config.maxPages)
  }

  lemma {:induction false} PrependTwice(us: seq<Unit>, xs: seq<Json>, vs: seq<Unit>, ys: seq<Json>,
                                        f: Fetch)
    ensures Prepend(us, xs, Prepend(vs, ys, f)) == Prepend(us + vs, xs + ys, f)
  {
    Reassociate(us, vs, f.units);
    if f.Success? {
      Reassociate(xs, ys, f.items);
    }
  }

  /** The loop's position: what is gathered so far, and the fetch that is left. */
  ghost predicate Midway(f: Fetch, units: seq<Unit>, items: seq<Json>, rest: Fetch) {
    f == Prepend(units, items, rest)
  }

  lemma {:induction false} OnePageOn(f: Fetch, units: seq<Unit>, items: seq<Json>, remote: Remote,
                                     config: Config, page: int, cursor: Option<string>,
                                     seen: set<string>, budget: nat)
    requires budget > 0 && Midway(f, units, items, FetchFrom(remote, config, page, cursor, seen, budget))
    ensures var turn := Take(remote, config, page, cursor);
      match turn
      case Lost(code) =>
        f == Failure(units + [FailedUnit(config, page, cursor, code)], UnitFailed(code))
      case Got(p) =>
        var u := FetchedUnit(config, page, cursor, p);
        if !HasMore(p) then f == Success(units + [u], items + p.items)
        else if p.next.value in seen then
          f == Failure(units + [u.(status := UnitStatus.Failed(CursorRepeated))],
                       UnitFailed(CursorRepeated))
        else
          Midway(f, units + [u], items + p.items,
                 FetchFrom(remote, config, page + 1, p.next, seen + {p.next.value}, budget - 1))
  {
    var turn := Take(remote, config, page, cursor);
    if turn.Got? && HasMore(turn.page) && turn.page.next.value !in seen {
      var p := turn.page;
      PrependTwice(units, items, [FetchedUnit(config, page, cursor, p)], p.items,
                   FetchFrom(remote, config, page + 1, p.next, seen + {p.next.value}, budget - 1));
    }
  }

  method FetchPaginated(remote: Remote, config: Config, startPage: int, startCursor: Option<string>,
                        singleUnit: bool)
    returns (f: Fetch)
    ensures startPage < 1 ==> f == Failure([], BadStartPage)
    ensures startPage >= 1 && !singleUnit ==> f == FetchAll(remote, config, startPage, startCursor)
    ensures startPage >= 1 && singleUnit ==> f == FetchOne(remote, config, startPage, startCursor)
  {
    if startPage < 1 {
      return Failure([], BadStartPage);
    }
    var page, cursor := startPage, startCursor;
    var units: seq<Unit>, items: seq<Json> := [], [];
    var seen: set<string> := {};
    ghost var whole, budget := FetchAll(remote, config, startPage, startCursor), config.maxPages;
    for i := 0 to config.maxPages
      invariant singleUnit ==> i == 0 && page == startPage && cursor == startCursor && units == []
      invariant budget == config.maxPages - i
      invariant !singleUnit ==>
        Midway(whole, units, items, FetchFrom(remote, config, page, cursor, seen, budget))
    {
      if !singleUnit {
        OnePageOn(whole, units, items, remote, config, page, cursor, seen, budget);
      }
      var turn := Take(remote, config, page, cursor);
      if turn.Lost? {
        units := units + [FailedUnit(config, page, cursor, turn.code)];
        return Failure(units, UnitFailed(turn.code));
      }
      var p := turn.page;
      var unit := FetchedUnit(config, page, cursor, p);
      if singleUnit {
        return Success(units + [unit], p.items);
      }
      items := items + p.items;
      if !HasMore(p) {
        return Success(units + [unit], items);
      }
      if p.next.value in seen {
        unit := unit.(status := UnitStatus.Failed(CursorRepeated));
        return Failure(units + [unit], UnitFailed(CursorRepeated));
      }
      units := units + [unit];
      seen := seen + {p.next.value};
      cursor := p.next;
      page := page + 1;
      budget := budget - 1;
    }
    return Failure(units, MaxPagesExceeded);
  }
}
