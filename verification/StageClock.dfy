/** The stage clock of an ingestion run: which stage is open, what each stage has cost. */
module StageClock {
  import opened Contracts

  /** Readings of a monotonic clock are integer ticks. */
  datatype Clock = Clock(
    stage: Option<string>, startedAt: Option<int>, durations: map<string, int>,
    duration: Option<int>, runStartedAt: int)

  datatype Interval = Interval(stage: string, from: int, to: int)

  /** Every operation reads the clock itself: `begin_stage` and `finish_run` read it twice. */
  datatype Operation =
    | Begin(stage: string, closeAt: int, openAt: int)
    | Finish(closeAt: int)
    | FinishRun(closeAt: int, endAt: int)

  function Get(m: map<string, int>, k: string): (v: int) { if k in m then m[k] else 0 }

  /** The interval an operation closes, if a stage is open. */
  function Closed(c: Clock, now: int): (closed: seq<Interval>) {
    if c.stage.Some? && c.startedAt.Some? then [Interval(c.stage.value, c.startedAt.value, now)]
    else []
  }

  function FinishStage(c: Clock, now: int): (c': Clock) {
    if c.stage.None? || c.startedAt.None? then c
    else
      var spent := now - c.startedAt.value;
      c.(durations := c.durations[c.stage.value := Get(c.durations, c.stage.value) + spent],
         startedAt := None)
  }

  function Apply(c: Clock, op: Operation): (c': Clock) {
    var finished := FinishStage(c, op.closeAt);
    match op
    case Begin(stage, _, openAt) => finished.(stage := Some(stage), startedAt := Some(openAt))
    case Finish(_) => finished
    case FinishRun(_, endAt) =>
      finished.(duration := Some(if endAt < c.runStartedAt then 0 else endAt - c.runStartedAt))
  }

  function Started(at: int): (c: Clock) { Clock(None, None, map[], None, at) }

  function After(at: int, ops: seq<Operation>): (c: Clock) {
    if ops == [] then Started(at) else Apply(After(at, ops[..|ops| - 1]), ops[|ops| - 1])
  }

  /** All intervals closed so far, oldest first. */
  function Intervals(at: int, ops: seq<Operation>): (log: seq<Interval>) {
    if ops == [] then []
    else
      Intervals(at, ops[..|ops| - 1]) + Closed(After(at, ops[..|ops| - 1]), ops[|ops| - 1].closeAt)
  }

  /** The latest clock reading. */
  function Now(at: int, ops: seq<Operation>): (now: int) {
    if ops == [] then at
    else
      match ops[|ops| - 1]
      case Begin(_, _, openAt) => openAt
      case Finish(closeAt) => closeAt
      case FinishRun(_, endAt) => endAt
  }

  /** Clock readings never go back. */
  predicate Monotone(at: int, ops: seq<Operation>) {
    ops == [] ||
    (var op := ops[|ops| - 1];
     && Monotone(at, ops[..|ops| - 1])
     && Now(at, ops[..|ops| - 1]) <= op.closeAt <= Now(at, ops))
  }

  ghost function Total(m: map<string, int>): (total: int) {
    if m == map[] then 0 else var k :| k in m; m[k] + Total(m - {k})
  }

  lemma {:induction false} TotalSplits(m: map<string, int>, k: string)
    requires k in m
    ensures Total(m) == m[k] + Total(m - {k})
    decreases |m|
  {
    var p :| p in m && Total(m) == m[p] + Total(m - {p});
    if p != k {
      TotalSplits(m - {p}, k);
      TotalSplits(m - {k}, p);
      assert m - {p} - {k} == m - {k} - {p};
    }
  }

  lemma {:induction false} TotalGrows(m: map<string, int>, k: string, spent: int)
    ensures Total(m[k := Get(m, k) + spent]) == Total(m) + spent
  {
    var grown := m[k := Get(m, k) + spent];
    TotalSplits(grown, k);
    assert grown - {k} == m - {k};
    if k in m {
      TotalSplits(m, k);
    } else {
      assert m - {k} == m;
    }
  }

  function Length(log: seq<Interval>): (total: int) {
    if log == [] then 0 else Length(log[..|log| - 1]) + log[|log| - 1].to - log[|log| - 1].from
  }

  /** Intervals follow one another inside `[from, to]`. */
  predicate Sequential(log: seq<Interval>, from: int, to: int) {
    if log == [] then from <= to
    else
      var last := log[|log| - 1];
      Sequential(log[..|log| - 1], from, last.from) && last.from <= last.to <= to
  }

  lemma {:induction false} SequentialDisjoint(log: seq<Interval>, from: int, to: int)
    requires Sequential(log, from, to)
    ensures forall i, j :: 0 <= i < j < |log| ==> log[i].to <= log[j].from
    ensures forall i :: 0 <= i < |log| ==> from <= log[i].from <= log[i].to <= to
    ensures 0 <= Length(log) <= to - from
  {
    if log != [] {
      SequentialDisjoint(log[..|log| - 1], from, log[|log| - 1].from);
    }
  }

  lemma {:induction false} SequentialExtends(log: seq<Interval>, i: Interval, from: int, to: int)
    requires Sequential(log, from, i.from) && i.from <= i.to <= to
    ensures Sequential(log + [i], from, to) && Length(log + [i]) == Length(log) + i.to - i.from
  {
    assert (log + [i])[..|log|] == log;
  }

  lemma {:induction false} SequentialWidens(log: seq<Interval>, from: int, to: int, to': int)
    requires Sequential(log, from, to) && to <= to'
    ensures Sequential(log, from, to')
  {
  }

  /** The closed intervals are sequential up to the opening of the stage in progress, the
      recorded durations are their lengths, and each stage is charged its own intervals. */
  ghost predicate Kept(c: Clock, log: seq<Interval>, at: int, now: int) {
    && c.runStartedAt == at
    && (c.startedAt.Some? ==> c.startedAt.value <= now)
    && Sequential(log, at, if c.startedAt.Some? then c.startedAt.value else now)
    && Total(c.durations) == Length(log)
    && (forall s :: Get(c.durations, s) == LengthOf(log, s))
  }

  function LengthOf(log: seq<Interval>, stage: string): (total: int) {
    if log == [] then 0
    else
      var last := log[|log| - 1];
      LengthOf(log[..|log| - 1], stage) + if last.stage == stage then last.to - last.from else 0
  }

  /** What every run of operations keeps. */
  lemma {:induction false} ClockInvariant(at: int, ops: seq<Operation>)
    requires Monotone(at, ops)
    ensures Kept(After(at, ops), Intervals(at, ops), at, Now(at, ops))
  {
    if ops != [] {
      var init, op := ops[..|ops| - 1], ops[|ops| - 1];
      ClockInvariant(at, init);
      ApplyKeeps(After(at, init), Intervals(at, init), at, Now(at, init), op, Now(at, ops));
    }
  }

  lemma {:induction false} ApplyKeeps(c: Clock, log: seq<Interval>, at: int, before: int,
                                      op: Operation, now: int)
    requires Kept(c, log, at, before) && before <= op.closeAt <= now
    requires op.Begin? ==> op.openAt == now
    ensures Kept(Apply(c, op), log + Closed(c, op.closeAt), at, now)
  {
    CloseKeeps(c, log, at, before, op.closeAt);
    SequentialWidens(log + Closed(c, op.closeAt), at, op.closeAt, now);
  }

  lemma {:induction false} CloseKeeps(c: Clock, log: seq<Interval>, at: int, before: int, now: int)
    requires Kept(c, log, at, before) && before <= now
    ensures Sequential(log + Closed(c, now), at, now)
    ensures Total(FinishStage(c, now).durations) == Length(log + Closed(c, now))
    ensures forall s ::
      Get(FinishStage(c, now).durations, s) == LengthOf(log + Closed(c, now), s)
  {
    if c.stage.Some? && c.startedAt.Some? {
      var closed := Closed(c, now)[0];
      SequentialExtends(log, closed, at, now);
      TotalGrows(c.durations, c.stage.value, now - c.startedAt.value);
      assert (log + [closed])[..|log|] == log;
    } else {
      assert log + Closed(c, now) == log;
      SequentialWidens(log, at, if c.startedAt.Some? then c.startedAt.value else before, now);
    }
  }

  /** Stage intervals never overlap, and at each end of the run the stage durations
      together are at most the run's duration. */
  lemma {:induction false} StagesFitInRun(at: int, ops: seq<Operation>)
    requires Monotone(at, ops) && ops != [] && ops[|ops| - 1].FinishRun?
    ensures After(at, ops).duration == Some(Now(at, ops) - at)
    ensures 0 <= Total(After(at, ops).durations) <= After(at, ops).duration.value
    ensures var log := Intervals(at, ops);
      forall i, j :: 0 <= i < j < |log| ==> log[i].to <= log[j].from
    ensures forall s :: Get(After(at, ops).durations, s) == LengthOf(Intervals(at, ops), s)
  {
    ClockInvariant(at, ops);
    ClockInvariant(at, ops[..|ops| - 1]);
    SequentialDisjoint(Intervals(at, ops), at,
      if After(at, ops).startedAt.Some? then After(at, ops).startedAt.value else Now(at, ops));
    MonotoneFrom(at, ops);
  }

  lemma {:induction false} MonotoneFrom(at: int, ops: seq<Operation>)
    requires Monotone(at, ops)
    ensures at <= Now(at, ops)
  {
    if ops != [] {
      MonotoneFrom(at, ops[..|ops| - 1]);
    }
  }
}
