/** The time series behind a graph: points are pushed at the end and trimmed to a recent time window. */
module PlotData {
  import opened CubicSpline

  datatype Throttle = Throttle(time: int, name: string, active: bool)

  type Series = map<string, seq<Sample>>

  datatype Store = Store(line: Series, secondary: Series, throttling: seq<Throttle>)

  /** Integer division by 1000 that rounds towards zero. */
  function Seconds(millis: int): int {
    if millis >= 0 then millis / 1000 else -(-millis / 1000)
  }

  /** A point is recent when it is fewer than `seconds` whole seconds older than the newest point. */
  predicate Recent(newest: int, time: int, seconds: int) {
    Seconds(newest - time) < seconds
  }

  function Retain<T>(s: seq<T>, keep: T -> bool): seq<T> {
    if s == [] then []
    else Retain(s[..|s| - 1], keep) + if keep(s[|s| - 1]) then [s[|s| - 1]] else []
  }

  function LastTime(s: seq<Sample>): int {
    if s == [] then 0 else s[|s| - 1].time
  }

  function Trim(s: seq<Sample>, seconds: int): seq<Sample> {
    Retain(s, (p: Sample) => Recent(LastTime(s), p.time, seconds))
  }

  function TrimThrottling(s: seq<Throttle>, seconds: int): seq<Throttle> {
    Retain(s, (t: Throttle) => Recent(if s == [] then 0 else s[|s| - 1].time, t.time, seconds))
  }

  function TrimSeries(series: Series, seconds: int): Series {
    map name | name in series && Trim(series[name], seconds) != [] :: Trim(series[name], seconds)
  }

  function Pushed(series: Series, name: string, point: Sample): Series {
    series[name := (if name in series then series[name] else []) + [point]]
  }

  // ---------- The object ----------

  class Plot {
    var lineSeries: Series
    var secondaryLineSeries: Series
    var throttling: seq<Throttle>

    ghost function Contents(): Store
      reads this
    {
      Store(lineSeries, secondaryLineSeries, throttling)
    }

    constructor ()
      ensures Contents() == Store(map[], map[], [])
    {
      lineSeries, secondaryLineSeries, throttling := map[], map[], [];
    }

    method PushLineSeriesWithTime(name: string, point: real, time: int)
      modifies this
      ensures Contents() == Step(old(Contents()), PushLine(name, Sample(time, point)))
    {
      if name !in lineSeries {
        lineSeries := lineSeries[name := []];
      }
      lineSeries := lineSeries[name := lineSeries[name] + [Sample(time, point)]];
    }

    method PushSecondaryLineSeriesWithTime(name: string, point: real, time: int)
      modifies this
      ensures Contents() == Step(old(Contents()), PushSecondary(name, Sample(time, point)))
    {
      if name !in secondaryLineSeries {
        secondaryLineSeries := secondaryLineSeries[name := []];
      }
      secondaryLineSeries := secondaryLineSeries[name := secondaryLineSeries[name] + [Sample(time, point)]];
    }

    method PushThrottling(name: string, active: bool, time: int)
      modifies this
      ensures Contents() == Step(old(Contents()), PushThrottle(Throttle(time, name, active)))
    {
      throttling := throttling + [Throttle(time, name, active)];
    }

    method TrimData(lastSeconds: int)
      modifies this
      ensures Contents() == Step(old(Contents()), TrimTo(lastSeconds))
    {
      lineSeries := TrimAll(lineSeries, lastSeconds);
      secondaryLineSeries := TrimAll(secondaryLineSeries, lastSeconds);
      var newest := if throttling == [] then 0 else throttling[|throttling| - 1].time;
      throttling := RetainAll(throttling, (t: Throttle) => Recent(newest, t.time, lastSeconds));
    }
  }

  method RetainAll<T>(s: seq<T>, keep: T -> bool) returns (kept: seq<T>)
    ensures kept == Retain(s, keep)
  {
    kept := [];
    for i := 0 to |s|
      invariant kept == Retain(s[..i], keep)
    {
      assert s[..i + 1][..i] == s[..i];
      if keep(s[i]) {
        kept := kept + [s[i]];
      }
    }
    assert s[..|s|] == s;
  }

  method TrimAll(series: Series, lastSeconds: int) returns (trimmed: Series)
    ensures trimmed == TrimSeries(series, lastSeconds)
  {
    var all := series;
    var names := series.Keys;
    while names != {}
      invariant names <= series.Keys == all.Keys
      invariant forall name :: name in names ==> all[name] == series[name]
      invariant forall name :: name in series && name !in names ==> all[name] == Trim(series[name], lastSeconds)
    {
      var name :| name in names;
      var maximumPoint := LastTime(all[name]);
      var kept := RetainAll(all[name], (p: Sample) => Recent(maximumPoint, p.time, lastSeconds));
      all := all[name := kept];
      names := names - {name};
    }
    trimmed := map name | name in all && all[name] != [] :: all[name];
  }

  // ---------- Any sequence of operations ----------

  datatype Op = PushLine(name: string, point: Sample)
              | PushSecondary(name: string, point: Sample)
              | PushThrottle(throttle: Throttle)
              | TrimTo(seconds: int)

  function Step(store: Store, op: Op): Store {
    match op
    case PushLine(name, point) => store.(line := Pushed(store.line, name, point))
    case PushSecondary(name, point) => store.(secondary := Pushed(store.secondary, name, point))
    case PushThrottle(throttle) => store.(throttling := store.throttling + [throttle])
    case TrimTo(seconds) =>
      Store(TrimSeries(store.line, seconds), TrimSeries(store.secondary, seconds),
          TrimThrottling(store.throttling, seconds))
  }

  function Run(ops: seq<Op>): Store {
    if ops == [] then Store(map[], map[], []) else Step(Run(ops[..|ops| - 1]), ops[|ops| - 1])
  }

  ghost predicate NoneEmpty(series: Series) {
    forall name :: name in series ==> series[name] != []
  }

  ghost predicate AllDrawable(series: Series) {
    forall name :: name in series ==> Drawable(series[name])
  }

  /** No stored series is ever empty, so the spline is never asked to draw nothing. */
  lemma {:induction false} NoEmptySeries(ops: seq<Op>)
    ensures NoneEmpty(Run(ops).line) && NoneEmpty(Run(ops).secondary)
  {
    if ops != [] {
      NoEmptySeries(ops[..|ops| - 1]);
    }
  }

  /** The push is later than the newest point that its series still holds. */
  ghost predicate Later(store: Store, op: Op) {
    && (op.PushLine? && op.name in store.line ==> LastTime(store.line[op.name]) < op.point.time)
    && (op.PushSecondary? && op.name in store.secondary ==> LastTime(store.secondary[op.name]) < op.point.time)
  }

  lemma {:induction false} RetainIncreasing(s: seq<Sample>, keep: Sample -> bool)
    requires forall i, j :: 0 <= i < j < |s| ==> s[i].time < s[j].time
    ensures forall i, j :: 0 <= i < j < |Retain(s, keep)| ==> Retain(s, keep)[i].time < Retain(s, keep)[j].time
  {
    if s != [] {
      var rest := s[..|s| - 1];
      RetainIncreasing(rest, keep);
      RetainMembers(rest, keep);
      var kept := Retain(rest, keep);
      forall i | 0 <= i < |kept| ensures kept[i].time < s[|s| - 1].time {
        assert kept[i] in kept;
      }
    }
  }

  lemma {:induction false} RetainMembers<T(!new)>(s: seq<T>, keep: T -> bool)
    ensures forall x :: x in Retain(s, keep) <==> x in s && keep(x)
  {
    if s != [] {
      RetainMembers(s[..|s| - 1], keep);
    }
  }

  /**
    As long as every push is later than what its series holds, whatever is trimmed in between, every
    stored series stays one that the spline accepts.
   */
  lemma {:induction false} AlwaysDrawable(ops: seq<Op>)
    requires forall k :: 0 <= k < |ops| ==> Later(Run(ops[..k]), ops[k])
    ensures AllDrawable(Run(ops).line) && AllDrawable(Run(ops).secondary)
  {
    if ops != [] {
      var before, op := ops[..|ops| - 1], ops[|ops| - 1];
      forall k | 0 <= k < |before| ensures Later(Run(before[..k]), before[k]) {
        assert before[..k] == ops[..k];
      }
      AlwaysDrawable(before);
      hide Step, Later, AllDrawable;
      assert before == ops[..|before|];
      StepKeepsDrawable(Run(before), op);
    }
  }

  lemma StepKeepsDrawable(store: Store, op: Op)
    requires AllDrawable(store.line) && AllDrawable(store.secondary) && Later(store, op)
    ensures AllDrawable(Step(store, op).line) && AllDrawable(Step(store, op).secondary)
  {
    match op
    case PushLine(name, point) => PushKeepsDrawable(store.line, name, point);
    case PushSecondary(name, point) => PushKeepsDrawable(store.secondary, name, point);
    case PushThrottle(_) =>
    case TrimTo(seconds) =>
      TrimKeepsDrawable(store.line, seconds);
      TrimKeepsDrawable(store.secondary, seconds);
  }

  lemma PushKeepsDrawable(series: Series, name: string, point: Sample)
    requires AllDrawable(series) && (name in series ==> LastTime(series[name]) < point.time)
    ensures AllDrawable(Pushed(series, name, point))
  {
    if name in series {
      var s := series[name];
      assert forall i :: 0 <= i < |s| ==> s[i].time <= LastTime(s);
    }
  }

  lemma TrimKeepsDrawable(series: Series, seconds: int)
    requires AllDrawable(series)
    ensures AllDrawable(TrimSeries(series, seconds))
  {
    forall name | name in TrimSeries(series, seconds) ensures Drawable(Trim(series[name], seconds)) {
      RetainIncreasing(series[name], (p: Sample) => Recent(LastTime(series[name]), p.time, seconds));
    }
  }

  // ---------- What trimming keeps ----------

  lemma {:induction false} RetainAllKept<T>(s: seq<T>, keep: T -> bool)
    requires forall i :: 0 <= i < |s| ==> keep(s[i])
    ensures Retain(s, keep) == s
  {
    if s != [] {
      RetainAllKept(s[..|s| - 1], keep);
    }
  }

  /** With a positive window the newest point stays, and trimming again changes nothing. */
  lemma TrimIdempotent(s: seq<Sample>, seconds: int)
    requires seconds >= 1
    ensures var t := Trim(s, seconds);
      (s != [] ==> t != [] && t[|t| - 1] == s[|s| - 1]) && Trim(t, seconds) == t
  {
    var t := Trim(s, seconds);
    if s != [] {
      assert Recent(LastTime(s), s[|s| - 1].time, seconds);
      assert t[|t| - 1] == s[|s| - 1];
      RetainMembers(s, (p: Sample) => Recent(LastTime(s), p.time, seconds));
      assert forall i :: 0 <= i < |t| ==> t[i] in t;
      RetainAllKept(t, (p: Sample) => Recent(LastTime(t), p.time, seconds));
    }
  }

  /** The points from `k` on, and no others, are within the window. */
  ghost predicate SplitsAt(s: seq<Sample>, k: int, newest: int, seconds: int) {
    0 <= k <= |s| && forall i :: 0 <= i < |s| ==> (k <= i <==> newest - s[i].time < 1000 * seconds)
  }

  /** On points in time order a positive window keeps exactly a suffix: all points that are recent enough. */
  lemma {:induction false} TrimIsSuffix(s: seq<Sample>, seconds: int, newest: int)
    requires seconds >= 1
    requires forall i, j :: 0 <= i < j < |s| ==> s[i].time < s[j].time
    requires forall i :: 0 <= i < |s| ==> s[i].time <= newest
    ensures exists k ::
      SplitsAt(s, k, newest, seconds) && Retain(s, (p: Sample) => Recent(newest, p.time, seconds)) == s[k..]
  {
    var keep := (p: Sample) => Recent(newest, p.time, seconds);
    var k := |s|;
    while k > 0 && keep(s[k - 1])
      invariant 0 <= k <= |s|
      invariant forall i :: k <= i < |s| ==> newest - s[i].time < 1000 * seconds
    {
      k := k - 1;
    }
    forall i | 0 <= i < k ensures !keep(s[i]) && newest - s[i].time >= 1000 * seconds {
      assert !keep(s[k - 1]);
      assert newest - s[k - 1].time >= 1000 * seconds;
      assert i < k - 1 ==> s[i].time < s[k - 1].time;
    }
    RetainSuffix(s, keep, k);
    assert SplitsAt(s, k, newest, seconds);
  }

  lemma {:induction false} RetainSuffix<T>(s: seq<T>, keep: T -> bool, k: nat)
    requires k <= |s|
    requires forall i :: 0 <= i < |s| ==> (keep(s[i]) <==> k <= i)
    ensures Retain(s, keep) == s[k..]
  {
    if s != [] {
      var rest := s[..|s| - 1];
      if k == |s| {
        RetainSuffix(rest, keep, k - 1);
      } else {
        RetainSuffix(rest, keep, k);
        assert s[k..] == rest[k..] + [s[|s| - 1]];
      }
    }
  }

  // ---------- What a push or a trim does to the stored points ----------

  /** Within a positive window: fewer milliseconds older than the newest point; points may also be newer. */
  lemma RecentIff(newest: int, time: int, seconds: int)
    ensures Recent(newest, time, seconds) <==>
      if seconds >= 1 then newest - time < 1000 * seconds else newest - time <= 1000 * (seconds - 1)
  {}

  /** Retaining drops points, and neither adds nor repeats any. */
  lemma {:induction false} RetainCounts<T(!new)>(s: seq<T>, keep: T -> bool, x: T)
    ensures multiset(Retain(s, keep))[x] == if keep(x) then multiset(s)[x] else 0
  {
    if s != [] {
      var rest, last := s[..|s| - 1], s[|s| - 1];
      RetainCounts(rest, keep, x);
      assert s == rest + [last];
      assert Retain(s, keep) == Retain(rest, keep) + if keep(last) then [last] else [];
    }
  }

  /** A push puts the point behind those of its series, and touches nothing else. */
  lemma PushAppends(store: Store, name: string, point: Sample)
    ensures var line, secondary := Step(store, PushLine(name, point)), Step(store, PushSecondary(name, point));
      && name in line.line && name in secondary.secondary
      && line.line[name] == (if name in store.line then store.line[name] else []) + [point]
      && secondary.secondary[name] == (if name in store.secondary then store.secondary[name] else []) + [point]
      && line.secondary == store.secondary && line.throttling == store.throttling
      && secondary.line == store.line && secondary.throttling == store.throttling
      && (forall other :: other != name ==>
            && (other in line.line <==> other in store.line)
            && (other in store.line ==> line.line[other] == store.line[other])
            && (other in secondary.secondary <==> other in store.secondary)
            && (other in store.secondary ==> secondary.secondary[other] == store.secondary[other]))
  {}

  lemma PushThrottlingAppends(store: Store, t: Throttle)
    ensures var after := Step(store, PushThrottle(t));
      && |after.throttling| == |store.throttling| + 1 && after.throttling[|store.throttling|] == t
      && after.throttling[..|store.throttling|] == store.throttling
      && after.line == store.line && after.secondary == store.secondary
  {}

  /** The point stays when the time window, up to the newest point of its series, holds it. */
  predicate InWindow(newest: int, time: int, seconds: int) {
    newest - time < 1000 * seconds
  }

  /** Exactly the series with points are there, each with exactly its points in the window, as often as before. */
  ghost predicate Windowed(before: Series, after: Series, seconds: int) {
    && (forall name :: name in after <==> name in before && before[name] != [])
    && (forall name, p: Sample :: name in after ==>
          multiset(after[name])[p] ==
            if InWindow(before[name][|before[name]| - 1].time, p.time, seconds) then multiset(before[name])[p] else 0)
  }

  /** A trim to a positive window keeps each series with exactly its points in the window, and likewise throttling. */
  lemma TrimKeepsWindow(store: Store, seconds: int)
    requires seconds >= 1
    ensures var after := Step(store, TrimTo(seconds));
      && Windowed(store.line, after.line, seconds) && Windowed(store.secondary, after.secondary, seconds)
      && (forall t :: multiset(after.throttling)[t] ==
            if store.throttling != []
               && InWindow(store.throttling[|store.throttling| - 1].time, t.time, seconds)
            then multiset(store.throttling)[t] else 0)
  {
    hide Windowed, TrimSeries, TrimThrottling, InWindow;
    TrimIsWindowed(store.line, seconds);
    TrimIsWindowed(store.secondary, seconds);
    forall t: Throttle ensures multiset(TrimThrottling(store.throttling, seconds))[t] ==
      if store.throttling != [] && InWindow(store.throttling[|store.throttling| - 1].time, t.time, seconds)
      then multiset(store.throttling)[t] else 0
    {
      ThrottlingWindowed(store.throttling, seconds, t);
    }
  }

  lemma ThrottlingWindowed(s: seq<Throttle>, seconds: int, t: Throttle)
    requires seconds >= 1
    ensures multiset(TrimThrottling(s, seconds))[t] ==
      if s != [] && InWindow(s[|s| - 1].time, t.time, seconds) then multiset(s)[t] else 0
  {
    RetainCounts(s, (x: Throttle) => Recent(if s == [] then 0 else s[|s| - 1].time, x.time, seconds), t);
    RecentIff(if s == [] then 0 else s[|s| - 1].time, t.time, seconds);
    hide Recent, Retain;
  }

  lemma TrimIsWindowed(series: Series, seconds: int)
    requires seconds >= 1
    ensures Windowed(series, TrimSeries(series, seconds), seconds)
  {
    var after := TrimSeries(series, seconds);
    forall name ensures name in after <==> name in series && series[name] != [] {
      if name in series { TrimIdempotent(series[name], seconds); }
    }
    forall name, p: Sample | name in after
      ensures multiset(after[name])[p] ==
        if InWindow(series[name][|series[name]| - 1].time, p.time, seconds) then multiset(series[name])[p] else 0
    {
      var s := series[name];
      RetainCounts(s, (x: Sample) => Recent(LastTime(s), x.time, seconds), p);
      RecentIff(LastTime(s), p.time, seconds);
    }
  }
}
