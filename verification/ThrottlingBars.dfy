/** The bars that mark throttling on a graph: runs of throttled samples, sorted and merged. */
module ThrottlingBars {
  import opened PlotData

  /** A closed interval of time. */
  type Interval = (int, int)

  // ---------- The pipeline ----------

  /** The end of the group of equal flags that starts at `i`. */
  function GroupEnd(s: seq<Throttle>, i: nat): (k: nat)
    requires i < |s|
    ensures i < k <= |s|
    ensures forall j :: i <= j < k ==> s[j].active == s[i].active
    ensures k < |s| ==> s[k].active != s[i].active
    decreases |s| - i
  {
    if i + 1 == |s| || s[i + 1].active != s[i].active then i + 1 else GroupEnd(s, i + 1)
  }

  /** First and last time of the group that starts at `i`, if it is a throttled one. */
  function GroupRun(s: seq<Throttle>, i: nat): seq<Interval>
    requires i < |s|
  {
    if s[i].active then [(s[i].time, s[GroupEnd(s, i) - 1].time)] else []
  }

  function RunsFrom(s: seq<Throttle>, i: nat): seq<Interval>
    requires i <= |s|
    decreases |s| - i
  {
    if i == |s| then [] else GroupRun(s, i) + RunsFrom(s, GroupEnd(s, i))
  }

  /** Groups consecutive samples by flag and keeps the throttled groups. */
  function ThrottledRuns(s: seq<Throttle>): seq<Interval> {
    RunsFrom(s, 0)
  }

  /** Inserts after every interval that does not start later, so equal starts keep their order. */
  function Insert(s: seq<Interval>, x: Interval): seq<Interval> {
    if s == [] || s[|s| - 1].0 <= x.0 then s + [x]
    else Insert(s[..|s| - 1], x) + [s[|s| - 1]]
  }

  function SortByStart(s: seq<Interval>): seq<Interval> {
    if s == [] then [] else Insert(SortByStart(s[..|s| - 1]), s[|s| - 1])
  }

  function Max(a: int, b: int): int { if a < b then b else a }

  /** Merges an interval into its predecessor when they touch or overlap. */
  function Coalesce(s: seq<Interval>): seq<Interval>
    decreases |s|
  {
    if |s| <= 1 then s
    else if s[0].1 >= s[1].0 then Coalesce([(s[0].0, Max(s[0].1, s[1].1))] + s[2..])
    else [s[0]] + Coalesce(s[1..])
  }

  function Bars(s: seq<Throttle>): seq<Interval> {
    Coalesce(SortByStart(ThrottledRuns(s)))
  }

  // ---------- Sorting and merging arbitrary intervals ----------

  ghost predicate SortedByStart(s: seq<Interval>) {
    forall i, j :: 0 <= i < j < |s| ==> s[i].0 <= s[j].0
  }

  ghost predicate Within(x: Interval, t: int) { x.0 <= t <= x.1 }

  ghost predicate Covered(s: seq<Interval>, t: int) {
    exists i :: 0 <= i < |s| && Within(s[i], t)
  }

  /** Each interval ends strictly before the next one starts. */
  ghost predicate Gapped(s: seq<Interval>) {
    forall i :: 0 <= i < |s| - 1 ==> s[i].1 < s[i + 1].0
  }

  lemma {:induction false} InsertPosition(s: seq<Interval>, x: Interval) returns (k: nat)
    requires SortedByStart(s)
    ensures k <= |s| && Insert(s, x) == s[..k] + [x] + s[k..]
    ensures forall i :: 0 <= i < |s| ==> (i < k <==> s[i].0 <= x.0)
  {
    var n := |s| - 1;
    if s == [] || s[n].0 <= x.0 {
      k := |s|;
    } else {
      k := InsertPosition(s[..n], x);
      assert s[k..] == s[..n][k..] + [s[n]];
    }
  }

  lemma SplicedElements(s: seq<Interval>, x: Interval, k: nat)
    requires k <= |s|
    ensures multiset(s[..k] + [x] + s[k..]) == multiset(s) + multiset{x}
  {
    assert s == s[..k] + s[k..];
  }

  lemma SplicedSorted(s: seq<Interval>, x: Interval, k: nat)
    requires SortedByStart(s) && k <= |s|
    requires forall i :: 0 <= i < |s| ==> (i < k <==> s[i].0 <= x.0)
    ensures SortedByStart(s[..k] + [x] + s[k..])
  {
    var r := s[..k] + [x] + s[k..];
    forall i, j | 0 <= i < j < |r| ensures r[i].0 <= r[j].0 {
      assert r[i] == if i < k then s[i] else if i == k then x else s[i - 1];
      assert r[j] == if j < k then s[j] else if j == k then x else s[j - 1];
    }
  }

  lemma {:induction false} InsertSorts(s: seq<Interval>, x: Interval)
    requires SortedByStart(s)
    ensures SortedByStart(Insert(s, x)) && multiset(Insert(s, x)) == multiset(s) + multiset{x}
  {
    hide Insert;
    var k := InsertPosition(s, x);
    SplicedElements(s, x, k);
    SplicedSorted(s, x, k);
  }

  lemma {:induction false} SortSorts(s: seq<Interval>)
    ensures SortedByStart(SortByStart(s)) && multiset(SortByStart(s)) == multiset(s)
  {
    if s != [] {
      SortSorts(s[..|s| - 1]);
      InsertSorts(SortByStart(s[..|s| - 1]), s[|s| - 1]);
      assert s == s[..|s| - 1] + [s[|s| - 1]];
    }
  }

  lemma SameElementsSameCover(s: seq<Interval>, r: seq<Interval>)
    requires multiset(s) == multiset(r)
    ensures forall t :: Covered(s, t) <==> Covered(r, t)
  {
    forall t ensures Covered(s, t) <==> Covered(r, t) {
      CoverTransfers(s, r, t);
      CoverTransfers(r, s, t);
    }
  }

  lemma CoverTransfers(s: seq<Interval>, r: seq<Interval>, t: int)
    requires multiset(s) == multiset(r)
    ensures Covered(s, t) ==> Covered(r, t)
  {
    if Covered(s, t) {
      var i :| 0 <= i < |s| && Within(s[i], t);
      assert s[i] in multiset(r);
      var j :| 0 <= j < |r| && r[j] == s[i];
    }
  }

  /** Merging keeps the covered times, and leaves sorted intervals with gaps between them. */
  lemma {:induction false} CoalesceCovers(s: seq<Interval>)
    requires SortedByStart(s)
    ensures var c := Coalesce(s);
      && SortedByStart(c) && Gapped(c)
      && (c == [] <==> s == [])
      && (s != [] ==> c[0].0 == s[0].0)
      && (forall t :: Covered(c, t) <==> Covered(s, t))
    decreases |s|
  {
    if |s| > 1 {
      if s[0].1 >= s[1].0 {
        var merged := [(s[0].0, Max(s[0].1, s[1].1))] + s[2..];
        assert SortedByStart(merged);
        CoalesceCovers(merged);
        forall t ensures Covered(merged, t) <==> Covered(s, t) { MergeCovers(s, merged, t); }
      } else {
        CoalesceCovers(s[1..]);
        var c := Coalesce(s);
        assert c[1..] == Coalesce(s[1..]);
        forall t ensures Covered(c, t) <==> Covered(s, t) {
          HeadCovers(s, t);
          HeadCovers(c, t);
        }
      }
    }
  }

  lemma HeadCovers(s: seq<Interval>, t: int)
    requires s != []
    ensures Covered(s, t) <==> Within(s[0], t) || Covered(s[1..], t)
  {
    if Covered(s, t) {
      var i :| 0 <= i < |s| && Within(s[i], t);
      assert i > 0 ==> Within(s[1..][i - 1], t);
    }
    if Covered(s[1..], t) {
      var i :| 0 <= i < |s| - 1 && Within(s[1..][i], t);
      assert Within(s[i + 1], t);
    }
  }

  lemma MergeCovers(s: seq<Interval>, merged: seq<Interval>, t: int)
    requires |s| > 1 && SortedByStart(s) && s[0].1 >= s[1].0
    requires merged == [(s[0].0, Max(s[0].1, s[1].1))] + s[2..]
    ensures Covered(merged, t) <==> Covered(s, t)
  {
    HeadCovers(s, t);
    HeadCovers(s[1..], t);
    HeadCovers(merged, t);
    assert s[1..][1..] == s[2..] == merged[1..];
    assert s[1..][0] == s[1];
  }

  ghost predicate Disjoint(s: seq<Interval>) {
    forall i, j, t :: 0 <= i < j < |s| ==> !(Within(s[i], t) && Within(s[j], t))
  }

  /** For samples with any times at all, the bars are disjoint and cover exactly the throttled runs. */
  lemma BarsCoverRuns(s: seq<Throttle>)
    ensures SortedByStart(Bars(s)) && Disjoint(Bars(s))
    ensures forall t :: Covered(Bars(s), t) <==> Covered(ThrottledRuns(s), t)
  {
    var runs := ThrottledRuns(s);
    SortSorts(runs);
    SameElementsSameCover(SortByStart(runs), runs);
    CoalesceCovers(SortByStart(runs));
    var bars := Bars(s);
    forall i, j, t | 0 <= i < j < |bars| && Within(bars[i], t) ensures !Within(bars[j], t) {
      assert bars[i].1 < bars[i + 1].0;
    }
  }

  // ---------- Samples taken in time order ----------

  ghost predicate InTimeOrder(s: seq<Throttle>) {
    forall i, j :: 0 <= i < j < |s| ==> s[i].time < s[j].time
  }

  /** Samples `a` to `b` are throttled, and no longer stretch around them is. */
  ghost predicate MaximalRun(s: seq<Throttle>, a: int, b: int) {
    && 0 <= a <= b < |s|
    && (forall i :: a <= i <= b ==> s[i].active)
    && (a > 0 ==> !s[a - 1].active)
    && (b + 1 < |s| ==> !s[b + 1].active)
  }

  ghost predicate SpansRun(s: seq<Throttle>, x: Interval) {
    exists a, b :: MaximalRun(s, a, b) && x == (s[a].time, s[b].time)
  }

  ghost predicate GroupStart(s: seq<Throttle>, i: nat) {
    i <= |s| && (0 < i < |s| ==> s[i - 1].active != s[i].active)
  }

  lemma {:induction false} GroupIsRun(s: seq<Throttle>, i: nat, a: int, b: int)
    requires GroupStart(s, i) && i < |s| && i <= a < GroupEnd(s, i)
    ensures MaximalRun(s, a, b) <==> s[i].active && a == i && b == GroupEnd(s, i) - 1
  {
    hide GroupEnd;
    var k := GroupEnd(s, i);
    assert s[a].active == s[i].active;
    assert a > i ==> s[a - 1].active == s[i].active;
    assert i <= b && b + 1 < k ==> s[b + 1].active == s[i].active;
    assert k < |s| ==> s[k].active != s[i].active;
  }

  lemma {:induction false} RunFound(s: seq<Throttle>, i: nat, a: int, b: int)
    requires GroupStart(s, i) && i <= a && MaximalRun(s, a, b)
    ensures (s[a].time, s[b].time) in RunsFrom(s, i)
    decreases |s| - i
  {
    var k := GroupEnd(s, i);
    if a < k {
      GroupIsRun(s, i, a, b);
    } else {
      RunFound(s, k, a, b);
    }
  }

  lemma {:induction false} FoundIsRun(s: seq<Throttle>, i: nat, x: Interval) returns (a: int, b: int)
    requires GroupStart(s, i) && x in RunsFrom(s, i)
    ensures MaximalRun(s, a, b) && x == (s[a].time, s[b].time)
    decreases |s| - i
  {
    var k := GroupEnd(s, i);
    if x in GroupRun(s, i) {
      a, b := i, k - 1;
      GroupIsRun(s, i, a, b);
    } else {
      a, b := FoundIsRun(s, k, x);
    }
  }

  /** The intervals found are exactly the maximal runs of throttled samples. */
  lemma RunsAreMaximal(s: seq<Throttle>)
    ensures forall x :: x in ThrottledRuns(s) <==> SpansRun(s, x)
  {
    forall x ensures x in ThrottledRuns(s) <==> SpansRun(s, x) {
      if SpansRun(s, x) {
        var a, b :| MaximalRun(s, a, b) && x == (s[a].time, s[b].time);
        RunFound(s, 0, a, b);
      }
      if x in ThrottledRuns(s) {
        var a, b := FoundIsRun(s, 0, x);
      }
    }
  }

  ghost predicate ProperFrom(s: seq<Interval>, start: int) {
    forall i :: 0 <= i < |s| ==> start <= s[i].0 <= s[i].1
  }

  lemma PrependGapped(x: Interval, rest: seq<Interval>, start: int)
    requires Gapped(rest) && ProperFrom(rest, start) && x.0 <= x.1 < start
    ensures Gapped([x] + rest) && ProperFrom([x] + rest, x.0)
  {}

  lemma {:induction false} RunsGapped(s: seq<Throttle>, i: nat)
    requires InTimeOrder(s) && i < |s|
    ensures Gapped(RunsFrom(s, i)) && ProperFrom(RunsFrom(s, i), s[i].time)
    decreases |s| - i
  {
    hide GroupEnd;
    var k := GroupEnd(s, i);
    assert s[i].time <= s[k - 1].time;
    assert RunsFrom(s, i) == GroupRun(s, i) + RunsFrom(s, k);
    if k < |s| {
      assert s[k - 1].time < s[k].time;
      RunsGapped(s, k);
      hide RunsFrom, InTimeOrder, Gapped, ProperFrom;
      if s[i].active {
        PrependGapped((s[i].time, s[k - 1].time), RunsFrom(s, k), s[k].time);
      }
    } else {
      assert RunsFrom(s, k) == [];
    }
  }

  lemma {:induction false} GappedSorted(s: seq<Interval>, start: int, i: nat, j: nat)
    requires Gapped(s) && i <= j < |s|
    requires ProperFrom(s, start)
    ensures s[i].0 <= s[j].0
  {
    if i < j {
      GappedSorted(s, start, i, j - 1);
    }
  }

  lemma {:induction false} SortKeepsSorted(s: seq<Interval>)
    requires SortedByStart(s)
    ensures SortByStart(s) == s
  {
    if s != [] {
      SortKeepsSorted(s[..|s| - 1]);
    }
  }

  lemma {:induction false} CoalesceKeepsGapped(s: seq<Interval>)
    requires Gapped(s)
    ensures Coalesce(s) == s
  {
    if |s| > 1 {
      var rest := s[1..];
      forall i | 0 <= i < |rest| - 1 ensures rest[i].1 < rest[i + 1].0 {
        assert s[i + 1].1 < s[i + 2].0;
      }
      CoalesceKeepsGapped(rest);
    }
  }

  /**
    For samples in time order the bars are exactly the maximal runs of throttled samples; so a sample
    lies in a bar if and only if it is throttled.
   */
  lemma BarsAreMaximalRuns(s: seq<Throttle>)
    requires InTimeOrder(s)
    ensures forall x :: x in Bars(s) <==> SpansRun(s, x)
    ensures forall k :: 0 <= k < |s| ==> (Covered(Bars(s), s[k].time) <==> s[k].active)
  {
    hide MaximalRun, SpansRun, Covered;
    var runs := ThrottledRuns(s);
    if s != [] {
      RunsGapped(s, 0);
      forall i, j | 0 <= i < j < |runs| ensures runs[i].0 <= runs[j].0 { GappedSorted(runs, s[0].time, i, j); }
    }
    SortKeepsSorted(runs);
    CoalesceKeepsGapped(runs);
    RunsAreMaximal(s);
    forall k | 0 <= k < |s| ensures Covered(runs, s[k].time) <==> s[k].active {
      CoveredIffThrottled(s, runs, k);
    }
  }

  lemma CoveredIffThrottled(s: seq<Throttle>, runs: seq<Interval>, k: nat)
    requires InTimeOrder(s) && k < |s|
    requires forall x :: x in runs <==> SpansRun(s, x)
    ensures Covered(runs, s[k].time) <==> s[k].active
  {
    if s[k].active {
      var a, b := RunAround(s, k);
      var x := (s[a].time, s[b].time);
      assert SpansRun(s, x) && Within(x, s[k].time);
      assert x in runs;
    }
    if Covered(runs, s[k].time) {
      var i :| 0 <= i < |runs| && Within(runs[i], s[k].time);
      assert runs[i] in runs;
      var a, b :| MaximalRun(s, a, b) && runs[i] == (s[a].time, s[b].time);
      assert a <= k <= b;
    }
  }

  lemma RunAround(s: seq<Throttle>, k: nat) returns (a: int, b: int)
    requires k < |s| && s[k].active
    ensures MaximalRun(s, a, b) && a <= k <= b
  {
    a, b := k, k;
    while a > 0 && s[a - 1].active
      invariant 0 <= a <= k && forall i :: a <= i <= k ==> s[i].active
    {
      a := a - 1;
    }
    while b + 1 < |s| && s[b + 1].active
      invariant k <= b < |s| && forall i :: a <= i <= b ==> s[i].active
    {
      b := b + 1;
    }
  }
}
