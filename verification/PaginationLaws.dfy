/** Whole-run properties of the pagination loop. */
module PaginationLaws {
  import opened Sequences
  import opened Contracts
  import opened Pagination

  // ---------------------------------------------------------------------------
  // Every run is a chain
  // ---------------------------------------------------------------------------

  /** Consecutive pages, each starting at the cursor the one before left behind; all but the
      last were fetched and announced more. */
  ghost predicate Chain(units: seq<Unit>, config: Config, page: int, cursor: Option<string>) {
    && (units != [] ==> units[0].cursorBefore == cursor)
    && (forall i :: 0 <= i < |units| ==>
          && units[i].page == page + i
          && units[i].key == UnitKey(config.scope, page + i, units[i].cursorBefore))
    && (forall i :: 0 <= i < |units| - 1 ==>
          && units[i].status == Fetched && units[i].hasMore && units[i].cursorAfter.Some?
          && units[i + 1].cursorBefore == units[i].cursorAfter)
  }

  lemma {:induction false} ChainCons(u: Unit, rest: seq<Unit>, config: Config, page: int,
                                     cursor: Option<string>)
    requires Chain(rest, config, page + 1, u.cursorAfter)
    requires u.page == page && u.cursorBefore == cursor && u.key == UnitKey(config.scope, page, cursor)
    requires rest != [] ==> u.status == Fetched && u.hasMore && u.cursorAfter.Some?
    ensures Chain([u] + rest, config, page, cursor)
  {
    var units := [u] + rest;
    forall i | 0 <= i < |units|
      ensures units[i].page == page + i
      ensures units[i].key == UnitKey(config.scope, page + i, units[i].cursorBefore)
    {
      if i > 0 {
        assert units[i] == rest[i - 1];
      }
    }
    forall i | 0 <= i < |units| - 1
      ensures units[i].status == Fetched && units[i].hasMore && units[i].cursorAfter.Some?
      ensures units[i + 1].cursorBefore == units[i].cursorAfter
    {
      if i > 0 {
        assert units[i] == rest[i - 1] && units[i + 1] == rest[i];
      }
    }
  }

  /** How a run ended shows in its last unit. */
  ghost predicate Ends(f: Fetch, budget: nat) {
    var n := |f.units|;
    match f
    case Success(us, _) => n > 0 && us[n - 1].status == Fetched && !us[n - 1].hasMore
    case Failure(us, e) =>
      match e
      case BadStartPage => false
      case MaxPagesExceeded => n == budget && (n > 0 ==> us[n - 1].status == Fetched && us[n - 1].hasMore)
      case UnitFailed(code) => n > 0 && us[n - 1].status == UnitStatus.Failed(code)
  }

  lemma {:induction false} EndsCons(u: Unit, items: seq<Json>, f: Fetch, budget: nat)
    requires budget > 0 && Ends(f, budget - 1) && u.status == Fetched && u.hasMore
    ensures Ends(Prepend([u], items, f), budget)
  {
    var units := [u] + f.units;
    if f.units != [] {
      assert units[|units| - 1] == f.units[|f.units| - 1];
    }
  }

  /** The fetch goes on after this page. */
  predicate Continues(turn: Turn, seen: set<string>, budget: nat) {
    budget > 0 && turn.Got? && HasMore(turn.page) && turn.page.next.value !in seen
  }

  /** What a fetch does after a page that it goes on from. */
  function Rest(remote: Remote, config: Config, page: int, p: Page, seen: set<string>, budget: nat)
    : (f: Fetch)
    requires HasMore(p) && budget > 0
  {
    FetchFrom(remote, config, page + 1, p.next, seen + {p.next.value}, budget - 1)
  }

  lemma {:induction false} FetchGoesOn(remote: Remote, config: Config, page: int,
                                       cursor: Option<string>, seen: set<string>, budget: nat)
    requires Continues(Take(remote, config, page, cursor), seen, budget)
    ensures var p := Take(remote, config, page, cursor).page;
      FetchFrom(remote, config, page, cursor, seen, budget)
        == Prepend([FetchedUnit(config, page, cursor, p)], p.items,
                   Rest(remote, config, page, p, seen, budget))
  {
  }

  lemma {:induction false} UnitsFormChain(remote: Remote, config: Config, page: int,
                                          cursor: Option<string>, seen: set<string>, budget: nat)
    ensures var us := FetchFrom(remote, config, page, cursor, seen, budget).units;
      Chain(us, config, page, cursor) && |us| <= budget
    decreases budget
  {
    var turn := Take(remote, config, page, cursor);
    if Continues(turn, seen, budget) {
      var p := turn.page;
      UnitsFormChain(remote, config, page + 1, p.next, seen + {p.next.value}, budget - 1);
      FetchGoesOn(remote, config, page, cursor, seen, budget);
      ChainCons(FetchedUnit(config, page, cursor, p),
                Rest(remote, config, page, p, seen, budget).units, config, page, cursor);
    }
  }

  lemma {:induction false} EndShows(remote: Remote, config: Config, page: int,
                                    cursor: Option<string>, seen: set<string>, budget: nat)
    ensures Ends(FetchFrom(remote, config, page, cursor, seen, budget), budget)
    decreases budget
  {
    var turn := Take(remote, config, page, cursor);
    if Continues(turn, seen, budget) {
      var p := turn.page;
      EndShows(remote, config, page + 1, p.next, seen + {p.next.value}, budget - 1);
      FetchGoesOn(remote, config, page, cursor, seen, budget);
      EndsCons(FetchedUnit(config, page, cursor, p), p.items,
               Rest(remote, config, page, p, seen, budget), budget);
    }
  }

  /** Whatever the outcome: the units form a chain within the budget, and the way the run ended
      shows in the last one. */
  lemma {:induction false} RunsAreChains(remote: Remote, config: Config, page: int,
                                         cursor: Option<string>, seen: set<string>, budget: nat)
    ensures var f := FetchFrom(remote, config, page, cursor, seen, budget);
      Chain(f.units, config, page, cursor) && |f.units| <= budget && Ends(f, budget)
  {
    UnitsFormChain(remote, config, page, cursor, seen, budget);
    EndShows(remote, config, page, cursor, seen, budget);
  }

  /** No cursor is requested twice, except that the start cursor may come up once more: the
      followed cursors are pairwise distinct, whatever the outcome. */
  lemma {:induction false} CursorsAreDistinct(remote: Remote, config: Config, page: int,
                                              cursor: Option<string>, seen: set<string>,
                                              budget: nat)
    ensures var us := FetchFrom(remote, config, page, cursor, seen, budget).units;
      && (forall i :: 0 < i < |us| ==>
            us[i].cursorBefore.Some? && us[i].cursorBefore.value !in seen)
      && (forall i, j :: 0 < i < j < |us| ==> us[i].cursorBefore != us[j].cursorBefore)
    decreases budget
  {
    var us := FetchFrom(remote, config, page, cursor, seen, budget).units;
    if |us| > 1 {
      var p := Take(remote, config, page, cursor).page;
      var rest := FetchFrom(remote, config, page + 1, p.next, seen + {p.next.value}, budget - 1).units;
      CursorsAreDistinct(remote, config, page + 1, p.next, seen + {p.next.value}, budget - 1);
      UnitsFormChain(remote, config, page + 1, p.next, seen + {p.next.value}, budget - 1);
      forall i | 0 < i < |us| ensures us[i] == rest[i - 1] {}
      assert rest[0].cursorBefore == p.next;
    }
  }

  // ---------------------------------------------------------------------------
  // When a fetch succeeds
  // ---------------------------------------------------------------------------

  /** `units` are the pages the remote links from here to the end of its stream. This knows
      neither the budget nor the cursors seen before. */
  predicate Stream(remote: Remote, config: Config, page: int, cursor: Option<string>, units: seq<Unit>)
    decreases |units|
  {
    && units != []
    && var turn := Take(remote, config, page, cursor);
    && turn.Got? && units[0] == FetchedUnit(config, page, cursor, turn.page)
    && if HasMore(turn.page) then Stream(remote, config, page + 1, turn.page.next, units[1..])
       else |units| == 1
  }

  function ItemsOf(remote: Remote, config: Config, units: seq<Unit>): (items: seq<Json>) {
    if units == [] then []
    else OwnItems(remote, config, units[0]) + ItemsOf(remote, config, units[1..])
  }

  function OwnItems(remote: Remote, config: Config, u: Unit): (items: seq<Json>) {
    var turn := Take(remote, config, u.page, u.cursorBefore);
    if turn.Got? then turn.page.items else []
  }

  /** The cursors followed from one unit to the next. */
  function Followed(units: seq<Unit>): (cursors: seq<Option<string>>) {
    if |units| <= 1 then [] else [units[0].cursorAfter] + Followed(units[1..])
  }

  ghost predicate Unseen(cursors: seq<Option<string>>, seen: set<string>) {
    forall c :: c in cursors && c.Some? ==> c.value !in seen
  }

  lemma {:induction false} DistinctCons<T>(x: T, xs: seq<T>)
    ensures Distinct([x] + xs) <==> x !in xs && Distinct(xs)
  {
    if Distinct([x] + xs) {
      forall i | 0 <= i < |xs| ensures xs[i] != x {
        assert ([x] + xs)[0] == x && ([x] + xs)[i + 1] == xs[i];
      }
      forall i, j | 0 <= i < j < |xs| ensures xs[i] != xs[j] {
        assert ([x] + xs)[i + 1] == xs[i] && ([x] + xs)[j + 1] == xs[j];
      }
    }
  }

  lemma {:induction false} UnseenCons(c: string, cursors: seq<Option<string>>, seen: set<string>)
    ensures Unseen([Some(c)] + cursors, seen) && Some(c) !in cursors
      <==> c !in seen && Some(c) !in cursors && Unseen(cursors, seen)
    ensures Unseen(cursors, seen + {c}) <==> Unseen(cursors, seen) && Some(c) !in cursors
  {
    if Unseen([Some(c)] + cursors, seen) {
      assert Some(c) in [Some(c)] + cursors;
      forall d | d in cursors && d.Some? ensures d.value !in seen {
        assert d in [Some(c)] + cursors;
      }
    }
  }

  /** A fetch with this much seen and this budget left succeeds with these units. */
  ghost predicate Fits(units: seq<Unit>, seen: set<string>, budget: nat) {
    |units| <= budget && Distinct(Followed(units)) && Unseen(Followed(units), seen)
  }

  lemma {:induction false} FitsCons(units: seq<Unit>, next: string, seen: set<string>, budget: nat)
    requires |units| > 1 && units[0].cursorAfter == Some(next)
    ensures Fits(units, seen, budget) <==>
      budget > 0 && next !in seen && Fits(units[1..], seen + {next}, budget - 1)
  {
    DistinctCons(Some(next), Followed(units[1..]));
    UnseenCons(next, Followed(units[1..]), seen);
    if Fits(units, seen, budget) {
      assert Some(next) in Followed(units);
    }
  }

  lemma {:induction false} CancelLeft<T>(a: seq<T>, b: seq<T>, c: seq<T>)
    ensures a + b == a + c <==> b == c
  {
    assert (a + b)[|a|..] == b && (a + c)[|a|..] == c;
  }

  lemma {:induction false} PrependCancels(u: Unit, items: seq<Json>, f: Fetch, units: seq<Unit>,
                                          rest: seq<Json>)
    ensures Prepend([u], items, f) == Success([u] + units, items + rest) <==> f == Success(units, rest)
  {
    CancelLeft([u], f.units, units);
    if f.Success? {
      CancelLeft(items, f.items, rest);
    }
  }

  /** The page a fetch goes on from is the first of the units it succeeds with. */
  lemma {:induction false} SuccessGoesOn(remote: Remote, config: Config, page: int,
                                         cursor: Option<string>, seen: set<string>, budget: nat,
                                         units: seq<Unit>)
    requires Continues(Take(remote, config, page, cursor), seen, budget) && units != []
    requires units[0] == FetchedUnit(config, page, cursor, Take(remote, config, page, cursor).page)
    ensures var p := Take(remote, config, page, cursor).page;
      (FetchFrom(remote, config, page, cursor, seen, budget)
        == Success(units, ItemsOf(remote, config, units)))
      <==> (Rest(remote, config, page, p, seen, budget)
        == Success(units[1..], ItemsOf(remote, config, units[1..])))
  {
    var p := Take(remote, config, page, cursor).page;
    assert units == [units[0]] + units[1..];
    FetchGoesOn(remote, config, page, cursor, seen, budget);
    PrependCancels(units[0], p.items, Rest(remote, config, page, p, seen, budget), units[1..],
                   ItemsOf(remote, config, units[1..]));
  }

  /** A fetch that meets a page with a next one succeeds only by going on. */
  lemma {:induction false} SuccessContinues(remote: Remote, config: Config, page: int,
                                            cursor: Option<string>, seen: set<string>, budget: nat)
    requires FetchFrom(remote, config, page, cursor, seen, budget).Success?
    ensures var turn := Take(remote, config, page, cursor);
      && turn.Got? && (HasMore(turn.page) ==> Continues(turn, seen, budget))
      && var us := FetchFrom(remote, config, page, cursor, seen, budget).units;
         us != [] && us[0] == FetchedUnit(config, page, cursor, turn.page)
         && (!HasMore(turn.page) ==> |us| == 1)
  {
  }

  /** A fetch succeeds with exactly the pages of the stream, and does so if and only if the
      stream fits the budget and never follows a cursor twice. */
  lemma {:induction false} SucceedsExactly(remote: Remote, config: Config, page: int,
                                           cursor: Option<string>, seen: set<string>, budget: nat,
                                           units: seq<Unit>)
    ensures FetchFrom(remote, config, page, cursor, seen, budget)
        == Success(units, ItemsOf(remote, config, units))
      <==> Stream(remote, config, page, cursor, units) && Fits(units, seen, budget)
    decreases budget, |units|
  {
    var turn := Take(remote, config, page, cursor);
    if FetchFrom(remote, config, page, cursor, seen, budget).Success? {
      SuccessContinues(remote, config, page, cursor, seen, budget);
    }
    if turn.Got? && units != [] && units[0] == FetchedUnit(config, page, cursor, turn.page) {
      if HasMore(turn.page) {
        if |units| > 1 {
          FitsCons(units, turn.page.next.value, seen, budget);
        }
        if Continues(turn, seen, budget) {
          SucceedsExactly(remote, config, page + 1, turn.page.next,
                          seen + {turn.page.next.value}, budget - 1, units[1..]);
          SuccessGoesOn(remote, config, page, cursor, seen, budget, units);
        }
      } else {
        assert units[1..] == [] <==> |units| == 1;
      }
    }
  }

  // ---------------------------------------------------------------------------
  // Resuming
  // ---------------------------------------------------------------------------

  lemma {:induction false} SuccessHasItems(remote: Remote, config: Config, page: int,
                                           cursor: Option<string>, seen: set<string>, budget: nat)
    requires FetchFrom(remote, config, page, cursor, seen, budget).Success?
    ensures var f := FetchFrom(remote, config, page, cursor, seen, budget);
      f.items == ItemsOf(remote, config, f.units)
    decreases budget
  {
    var p := Take(remote, config, page, cursor).page;
    var u := FetchedUnit(config, page, cursor, p);
    if HasMore(p) {
      var rest := FetchFrom(remote, config, page + 1, p.next, seen + {p.next.value}, budget - 1);
      SuccessHasItems(remote, config, page + 1, p.next, seen + {p.next.value}, budget - 1);
      assert ([u] + rest.units)[1..] == rest.units;
    } else {
      assert [u][1..] == [];
    }
  }

  /** The cursor a fetch is at after `k` units: what a checkpoint stores. */
  function CursorAt(units: seq<Unit>, cursor: Option<string>, k: nat): (c: Option<string>)
    requires k <= |units|
  {
    if k == 0 then cursor else units[k - 1].cursorAfter
  }

  lemma {:induction false} StreamSuffix(remote: Remote, config: Config, page: int,
                                        cursor: Option<string>, units: seq<Unit>, k: nat, at: int)
    requires Stream(remote, config, page, cursor, units) && k < |units| && at == page + k
    ensures Stream(remote, config, at, CursorAt(units, cursor, k), units[k..])
    decreases k
  {
    if k == 0 {
      assert units[0..] == units;
    } else {
      StreamSuffix(remote, config, page + 1, units[0].cursorAfter, units[1..], k - 1, at);
      assert units[1..][k - 1..] == units[k..];
    }
  }

  lemma {:induction false} FitsSuffix(units: seq<Unit>, budget: nat, k: nat)
    requires Fits(units, {}, budget) && k <= |units|
    ensures Fits(units[k..], {}, budget)
    decreases k
  {
    if k == 0 {
      assert units[0..] == units;
    } else {
      if |units| > 1 {
        DistinctCons(units[0].cursorAfter, Followed(units[1..]));
      }
      FitsSuffix(units[1..], budget, k - 1);
      assert units[1..][k - 1..] == units[k..];
    }
  }

  lemma {:induction false} ItemsSplit(remote: Remote, config: Config, units: seq<Unit>, k: nat)
    requires k <= |units|
    ensures ItemsOf(remote, config, units)
      == ItemsOf(remote, config, units[..k]) + ItemsOf(remote, config, units[k..])
    decreases k
  {
    if k == 0 {
      assert units[0..] == units;
    } else {
      var rest := units[1..];
      ItemsSplit(remote, config, rest, k - 1);
      assert rest[k - 1..] == units[k..] && units[..k][1..] == rest[..k - 1];
      Reassociate(OwnItems(remote, config, units[0]), ItemsOf(remote, config, rest[..k - 1]),
                  ItemsOf(remote, config, units[k..]));
    }
  }

  /** A fetch resumed from the checkpoint after any `k` units, with the budget and the set of
      seen cursors started anew, yields exactly the units and items that were left. */
  lemma {:induction false} ResumeEqualsUninterrupted(remote: Remote, config: Config, page: int,
                                                     cursor: Option<string>, k: nat)
    requires var f := FetchAll(remote, config, page, cursor); f.Success? && k < |f.units|
    ensures var f := FetchAll(remote, config, page, cursor);
      var g := FetchAll(remote, config, page + k, CursorAt(f.units, cursor, k));
      && g.Success? && g.units == f.units[k..]
      && f.items == ItemsOf(remote, config, f.units[..k]) + g.items
  {
    var f := FetchAll(remote, config, page, cursor);
    var at, c := page + k, CursorAt(f.units, cursor, k);
    SuccessHasItems(remote, config, page, cursor, {}, config.maxPages);
    SucceedsExactly(remote, config, page, cursor, {}, config.maxPages, f.units);
    StreamSuffix(remote, config, page, cursor, f.units, k, at);
    FitsSuffix(f.units, config.maxPages, k);
    SucceedsExactly(remote, config, at, c, {}, config.maxPages, f.units[k..]);
    ItemsSplit(remote, config, f.units, k);
  }

  /** Single-unit fetches, each started where the one before stopped, at most `n` of them. */
  function Chained(remote: Remote, config: Config, page: int, cursor: Option<string>, n: nat)
    : (units: seq<Unit>)
    decreases n
  {
    if n == 0 then []
    else
      match FetchOne(remote, config, page, cursor)
      case Failure(us, _) => us
      case Success(us, _) =>
        if us[0].hasMore then us + Chained(remote, config, page + 1, us[0].cursorAfter, n - 1) else us
  }

  lemma {:induction false} StreamIsChained(remote: Remote, config: Config, page: int,
                                           cursor: Option<string>, units: seq<Unit>, n: nat)
    requires Stream(remote, config, page, cursor, units) && config.maxPages > 0
    ensures Chained(remote, config, page, cursor, n) == if n < |units| then units[..n] else units
    decreases n
  {
    if n > 0 {
      var p := Take(remote, config, page, cursor).page;
      assert units == [units[0]] + units[1..];
      if HasMore(p) {
        StreamIsChained(remote, config, page + 1, p.next, units[1..], n - 1);
        if n < |units| {
          assert units[..n] == [units[0]] + units[1..][..n - 1];
        }
      }
    }
  }

  /** `n` chained single-unit fetches give the first `n` units of an uninterrupted fetch. */
  lemma {:induction false} SingleUnitsChainUp(remote: Remote, config: Config, page: int,
                                              cursor: Option<string>, n: nat)
    requires FetchAll(remote, config, page, cursor).Success?
    ensures var units := FetchAll(remote, config, page, cursor).units;
      Chained(remote, config, page, cursor, n) == if n < |units| then units[..n] else units
  {
    var f := FetchAll(remote, config, page, cursor);
    SuccessHasItems(remote, config, page, cursor, {}, config.maxPages);
    SucceedsExactly(remote, config, page, cursor, {}, config.maxPages, f.units);
    StreamIsChained(remote, config, page, cursor, f.units, n);
  }

  // ---------------------------------------------------------------------------
  // Cycles
  // ---------------------------------------------------------------------------

  /** From this position, and from every cursor of `cycle` on any page, the remote announces
      more with a cursor of `cycle`: the chain never ends. */
  ghost predicate Endless(remote: Remote, config: Config, page: int, cursor: Option<string>,
                          cycle: set<string>)
  {
    && LeadsInto(remote, config, page, cursor, cycle)
    && forall q: int, c: string :: c in cycle ==> LeadsInto(remote, config, q, Some(c), cycle)
  }

  ghost predicate LeadsInto(remote: Remote, config: Config, page: int, cursor: Option<string>,
                            cycle: set<string>)
  {
    var turn := Take(remote, config, page, cursor);
    turn.Got? && HasMore(turn.page) && turn.page.next.value in cycle
  }

  /** A cycle never succeeds, and is reported as a repeated cursor as soon as the budget exceeds
      the cursors of the cycle that are still new. */
  lemma {:induction false} CyclesAreCaught(remote: Remote, config: Config, page: int,
                                           cursor: Option<string>, seen: set<string>, budget: nat,
                                           cycle: set<string>)
    requires Endless(remote, config, page, cursor, cycle)
    ensures var f := FetchFrom(remote, config, page, cursor, seen, budget);
      && f.Failure? && |f.units| <= |cycle - seen| + 1
      && (budget > |cycle - seen| ==> f.error == UnitFailed(CursorRepeated))
    decreases budget
  {
    if budget > 0 {
      var next := Take(remote, config, page, cursor).page.next;
      if next.value !in seen {
        assert LeadsInto(remote, config, page + 1, next, cycle);
        assert cycle - (seen + {next.value}) == (cycle - seen) - {next.value};
        CyclesAreCaught(remote, config, page + 1, next, seen + {next.value}, budget - 1, cycle);
      }
    }
  }

  /** Chained single-unit fetches remember no cursors: they follow a cycle as long as they are
      asked to. */
  lemma {:induction false} SingleUnitsFollowCycles(remote: Remote, config: Config, page: int,
                                                   cursor: Option<string>, n: nat,
                                                   cycle: set<string>)
    requires Endless(remote, config, page, cursor, cycle) && config.maxPages > 0
    ensures |Chained(remote, config, page, cursor, n)| == n
    decreases n
  {
    if n > 0 {
      var next := Take(remote, config, page, cursor).page.next;
      assert LeadsInto(remote, config, page + 1, next, cycle);
      SingleUnitsFollowCycles(remote, config, page + 1, next, n - 1, cycle);
    }
  }

  // ---------------------------------------------------------------------------
  // Payloads
  // ---------------------------------------------------------------------------

  /** Without a configured cursor path the cursor is read from where the items are by default:
      a page whose items come from there never parses. */
  lemma {:induction false} DefaultPathsNeverParse(payload: Json, config: Config)
    requires config.itemsPath == [] && config.cursorPath == []
    ensures ParsePage(payload, config) == None
  {
  }

  lemma {:induction false} DigitsAreNotEmpty(n: nat)
    ensures Digits(n) != ""
  {
  }

  /** An integer cursor always means that there is more; only an absent, null or empty one ends
      the stream. */
  lemma {:induction false} StreamEnds(payload: Json, config: Config)
    requires ParsePage(payload, config).Some?
    ensures !HasMore(ParsePage(payload, config).value)
      <==> Extract(payload, config.cursorPath) in {None, Some(Null), Some(Str(""))}
  {
    var value := Extract(payload, config.cursorPath);
    if value.Some? && value.value.Int? {
      DigitsAreNotEmpty(if value.value.n < 0 then -value.value.n else value.value.n);
    }
  }
}
