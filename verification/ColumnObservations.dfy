/** Distinct values per column, counted up to a limit. */
module ColumnObservations {

  /** One non-blank cell of a row under its header; the value is empty where it is null. */
  datatype Item = Item(column: string, value: string)

  datatype Observations = Observations(values: map<string, set<string>>, saturated: set<string>,
                                       nulls: multiset<string>)

  const NOTHING_SEEN := Observations(map[], {}, multiset{})

  function Stored(o: Observations, column: string): (values: set<string>) {
    if column in o.values then o.values[column] else {}
  }

  function Observe(o: Observations, item: Item, limit: nat): (o': Observations) {
    var known := Stored(o, item.column);
    if item.value == "" then o.(nulls := o.nulls + multiset{item.column})
    else if item.value in known then o
    else if |known| < limit then o.(values := o.values[item.column := known + {item.value}])
    else o.(saturated := o.saturated + {item.column})
  }

  function ObserveUpTo(o: Observations, items: seq<Item>, limit: nat, n: nat): (o': Observations)
    requires n <= |items|
  {
    if n == 0 then o else Observe(ObserveUpTo(o, items, limit, n - 1), items[n - 1], limit)
  }

  method CollectObservations(o: Observations, items: seq<Item>, limit: nat) returns (o': Observations)
    ensures o' == ObserveUpTo(o, items, limit, |items|)
  {
    var values, saturated, nulls := o.values, o.saturated, o.nulls;
    for i := 0 to |items|
      invariant Observations(values, saturated, nulls) == ObserveUpTo(o, items, limit, i)
    {
      var column, value := items[i].column, items[i].value;
      if value == "" {
        nulls := nulls + multiset{column};
        continue;
      }
      var known := if column in values then values[column] else {};
      if value !in known {
        if |known| < limit {
          values := values[column := known + {value}];
        } else {
          saturated := saturated + {column};
        }
      }
    }
    o' := Observations(values, saturated, nulls);
  }

  /** The distinct non-null values that the first `n` items bring to a column. */
  function Distinct(items: seq<Item>, column: string, n: nat): (values: set<string>)
    requires n <= |items|
  {
    if n == 0 then {} else Adding(Distinct(items, column, n - 1), items[n - 1], column)
  }

  function Adding(values: set<string>, item: Item, column: string): (values': set<string>) {
    if item.column == column && item.value != "" then values + {item.value} else values
  }

  /** What is stored is true, as many as there are up to the limit, and marked saturated exactly
      when there are more. */
  ghost predicate Counts(stored: set<string>, saturated: bool, distinct: set<string>, limit: nat) {
    && stored <= distinct
    && |stored| == (if |distinct| <= limit then |distinct| else limit)
    && (saturated <==> |distinct| > limit)
  }

  lemma {:induction false} SubsetSize(a: set<string>, b: set<string>)
    requires a <= b
    ensures |a| <= |b| && (|a| == |b| ==> a == b)
  {
    assert b == a + (b - a);
  }

  /** A value enters the store, or saturates the column, exactly as the true count grows. */
  lemma {:induction false} CountsStep(stored: set<string>, saturated: bool, distinct: set<string>,
                                      limit: nat, value: string)
    requires Counts(stored, saturated, distinct, limit)
    ensures
      if value in stored then Counts(stored, saturated, distinct + {value}, limit)
      else if |stored| < limit then Counts(stored + {value}, saturated, distinct + {value}, limit)
      else Counts(stored, true, distinct + {value}, limit)
  {
    SubsetSize(stored, distinct);
    if value in stored {
      assert distinct + {value} == distinct;
    } else if |stored| < limit {
      assert stored == distinct;
    } else {
      SubsetSize(stored + {value}, distinct + {value});
    }
  }

  lemma {:induction false} ObserveElsewhere(o: Observations, item: Item, limit: nat, column: string)
    requires item.column != column || item.value == ""
    ensures var o' := Observe(o, item, limit);
      Stored(o', column) == Stored(o, column) && (column in o'.saturated <==> column in o.saturated)
  {
  }

  lemma {:induction false} ObserveHere(o: Observations, item: Item, limit: nat,
                                       distinct: set<string>)
    requires item.value != ""
    requires Counts(Stored(o, item.column), item.column in o.saturated, distinct, limit)
    ensures var o' := Observe(o, item, limit);
      Counts(Stored(o', item.column), item.column in o'.saturated, distinct + {item.value}, limit)
  {
    CountsStep(Stored(o, item.column), item.column in o.saturated, distinct, limit, item.value);
  }

  lemma {:induction false} ObserveOne(o: Observations, item: Item, limit: nat, column: string,
                                      distinct: set<string>)
    requires Counts(Stored(o, column), column in o.saturated, distinct, limit)
    ensures var o' := Observe(o, item, limit);
      Counts(Stored(o', column), column in o'.saturated, Adding(distinct, item, column), limit)
  {
    if item.column == column && item.value != "" {
      ObserveHere(o, item, limit, distinct);
    } else {
      ObserveElsewhere(o, item, limit, column);
    }
  }

  /** For every stream and limit, each column's stored count is the true distinct non-null count
      cut off at the limit, and the column is saturated exactly when the true count exceeds it. */
  lemma {:induction false} DistinctCountsExactly(items: seq<Item>, limit: nat, n: nat,
                                                 column: string)
    requires n <= |items|
    ensures var o := ObserveUpTo(NOTHING_SEEN, items, limit, n);
      Counts(Stored(o, column), column in o.saturated, Distinct(items, column, n), limit)
  {
    if n > 0 {
      DistinctCountsExactly(items, limit, n - 1, column);
      ObserveOne(ObserveUpTo(NOTHING_SEEN, items, limit, n - 1), items[n - 1], limit, column,
                 Distinct(items, column, n - 1));
    }
  }
}
