/**
  Requests to set the profile, looked at from any state: when one may begin beside others, and when a
  choice made by hand stays in force.
 */
module WatcherRequests {
  import opened Wrappers
  import opened ProcessIndex
  import opened ProfileRules
  import opened ProfileWatcher
  import opened WatcherSteps
  import opened WatcherLimits
  import Config

  // ---------- A watcher that works can get to the head of its loop ----------

  predicate Working(phase: Phase) {
    Holding(phase) && !Ending(phase)
  }

  /** `h` is at the head of its loop; apart from the table and the current profile nothing else changed. */
  ghost predicate GetsToHead(s: State, h: nat, f: State) {
    && h in s.watchers && HasTable(f)
    && f == With(s, h, s.watchers[h].(phase := Head)).(current := f.current, table := f.table)
  }

  function NextMove(phase: Phase, h: nat): Action
    requires Working(phase) && !phase.Head?
  {
    match phase
    case Loading => Load(h, [])
    case Evaluate => DoEvaluate(h)
    case Compare(_) => DoCompare(h)
    case Check(_) => DoCheck(h)
    case Write(_) => DoWrite(h)
    case Debounce => DebounceEnds(h)
  }

  function MovesLeft(phase: Phase): nat {
    match phase
    case Debounce => 5
    case Loading => 5
    case Evaluate => 4
    case Compare(_) => 3
    case Check(_) => 2
    case Write(_) => 1
    case _ => 0
  }

  lemma MovesOn(s: State, h: nat)
    requires h in s.watchers && Working(s.watchers[h].phase) && !s.watchers[h].phase.Head?
    requires s.watchers[h].phase.Loading? || HasTable(s)
    ensures var a := NextMove(s.watchers[h].phase, h);
      && Enabled(s, a) && Regular(s, a)
      && var f := Next(s, a);
        && h in f.watchers && Working(f.watchers[h].phase) && HasTable(f)
        && MovesLeft(f.watchers[h].phase) < MovesLeft(s.watchers[h].phase)
        && f == With(s, h, s.watchers[h].(phase := f.watchers[h].phase)).(current := f.current, table := f.table)
  {
    hide Next, Indexed, HandledAll;
    var a := NextMove(s.watchers[h].phase, h);
    if a.Load? {
      EmptyIndexed();
      EventsKeepIndexed(EMPTY, []);
      LoadStep(s, h, []);
    } else {
      MoveStep(s, a, h);
    }
    hide Evaluated, NamedOrNone;
  }

  lemma {:induction false} ReachesHead(s: State, h: nat) returns (actions: seq<Action>)
    requires h in s.watchers && Working(s.watchers[h].phase)
    requires s.watchers[h].phase.Loading? || HasTable(s)
    ensures Path(s, actions) && GetsToHead(s, h, End(s, actions)) && ByWatchers(actions)
    decreases MovesLeft(s.watchers[h].phase)
  {
    hide Path, End, Next, Enabled, Regular, Indexed;
    if s.watchers[h].phase.Head? {
      NoStep(s);
      actions := [];
      assert With(s, h, s.watchers[h]) == s;
    } else {
      MovesOn(s, h);
      var a := NextMove(s.watchers[h].phase, h);
      hide NextMove;
      actions := ReachesHead(Next(s, a), h);
      Prepend(s, a, actions);
      actions := [a] + actions;
    }
  }

  // ---------- A watcher that was told to stop gives up the lock ----------

  /** Neither stuck in a restart nor about to restart. */
  ghost predicate Unhindered(s: State) {
    forall w :: w in s.watchers ==>
      !s.watchers[w].phase.Stuck? && (s.watchers[w].reload ==> Ending(s.watchers[w].phase))
  }

  /** The requests are as before, except that some may have delivered their Stop. */
  ghost predicate SameGoals(s: State, f: State) {
    && f.requests.Keys == s.requests.Keys
    && forall r :: r in s.requests ==>
      f.requests[r] == s.requests[r] || (s.requests[r].Stopping? && f.requests[r] == Ready(s.requests[r].goal))
  }

  /** `h` has left; the rest of the state is as it was, except for what only a request or `h` changes. */
  ghost predicate Cleared(s: State, h: nat, f: State) {
    && SameGoals(s, f) && f.watchers.Keys == s.watchers.Keys
    && f == s.(watchers := f.watchers, current := f.current, table := None, lock := None, requests := f.requests)
    && forall y :: y in s.watchers ==>
      if y == h then f.watchers[y].phase.Gone? && |f.watchers[y].queue| <= CAPACITY else f.watchers[y] == s.watchers[y]
  }

  lemma ListenerLeaves(s: State, h: nat) returns (actions: seq<Action>)
    requires Listens(s, h) && |s.watchers[h].queue| <= CAPACITY
    requires Stop in s.watchers[h].queue || ToBeStopped(s, h)
    ensures Path(s, actions) && Cleared(s, h, End(s, actions))
  {
    hide Path, End, Next, Indexed, FirstMatch;
    if Stop in s.watchers[h].queue {
      actions := WorksOff(s, h);
    } else {
      var r :| r in s.requests && Stops(s.requests[r], h);
      hide ToBeStopped;
      if Full(s, h) {
        assert s.watchers[h].queue[0] in s.watchers[h].queue;
        var first := TakesUpdate(s, h);
        var s1 := End(s, first);
        var second := StoppedAndLeaves(s1, h, r);
        Append(s, first, second);
        actions := first + second;
      } else {
        actions := StoppedAndLeaves(s, h, r);
      }
    }
  }

  lemma StoppedAndLeaves(s: State, h: nat, r: nat) returns (actions: seq<Action>)
    requires Listens(s, h) && !Full(s, h) && r in s.requests && Stops(s.requests[r], h)
    ensures Path(s, actions) && Cleared(s, h, End(s, actions))
  {
    hide Path, End, Next, Indexed;
    SendStopStep(s, r);
    var s1 := Next(s, SendStop(r));
    assert s1.watchers[h].queue == s.watchers[h].queue + [Stop];
    actions := WorksOff(s1, h);
    Prepend(s, SendStop(r), actions);
    actions := [SendStop(r)] + actions;
  }

  lemma HolderLeaves(s: State, h: nat) returns (actions: seq<Action>)
    requires h in s.watchers && Working(s.watchers[h].phase) && !s.watchers[h].reload
    requires s.watchers[h].phase.Loading? || HasTable(s)
    requires |s.watchers[h].queue| <= CAPACITY && (Stop in s.watchers[h].queue || ToBeStopped(s, h))
    ensures Path(s, actions) && Cleared(s, h, End(s, actions))
  {
    hide Path, End, Indexed;
    var first := ReachesHead(s, h);
    var s1 := End(s, first);
    assert ToBeStopped(s, h) ==> ToBeStopped(s1, h) by {
      assert s1.requests == s.requests;
    }
    hide ToBeStopped;
    var second := ListenerLeaves(s1, h);
    Append(s, first, second);
    actions := first + second;
  }

  /** The holder of the lock, if any, works and can be stopped, or is leaving; the others rest. */
  ghost predicate Clearable(s: State) {
    && (s.lock.Some? ==> s.lock.value in s.watchers && HolderCanLeave(s, s.lock.value))
    && forall y :: y in s.watchers && s.lock != Some(y) ==> Rests(s.watchers[y])
  }

  ghost predicate HolderCanLeave(s: State, h: nat)
    requires h in s.watchers
  {
    var me := s.watchers[h];
    && |me.queue| <= CAPACITY
    && (me.phase.Leaving? || (Working(me.phase) && !me.reload && (me.phase.Loading? || HasTable(s))
                              && (Stop in me.queue || ToBeStopped(s, h))))
  }

  ghost predicate AllParked(s: State, f: State) {
    && SameGoals(s, f) && Parked(f) && f.watchers.Keys == s.watchers.Keys
    && f == s.(watchers := f.watchers, current := f.current, table := f.table, lock := None, requests := f.requests)
  }

  lemma LockClears(s: State) returns (actions: seq<Action>)
    requires Clearable(s)
    ensures Path(s, actions) && AllParked(s, End(s, actions))
  {
    hide Path, End, Next;
    if s.lock.None? {
      NoStep(s);
      actions := [];
    } else if s.watchers[s.lock.value].phase.Leaving? {
      var h := s.lock.value;
      assert Enabled(s, Release(h)) && Regular(s, Release(h));
      MoveStep(s, Release(h), h);
      OneStep(s, Release(h));
      actions := [Release(h)];
    } else {
      hide ToBeStopped, Indexed;
      actions := HolderLeaves(s, s.lock.value);
    }
  }

  // ---------- When a request may begin ----------

  lemma BeginClearable(s: State, r: nat, goal: Goal, after: Profiles)
    requires Inv(s) && Unhindered(s) && Enabled(s, Begin(r, goal))
    ensures Clearable(Next(s, Begin(r, goal)).(profiles := after))
  {
    hide Next;
    QuietStep(s, Begin(r, goal));
    var f := Next(s, Begin(r, goal)).(profiles := after);
    forall y | y in s.watchers && s.lock != Some(y) ensures Rests(s.watchers[y]) { InvAt(s, y); }
    if s.lock.Some? {
      var h := s.lock.value;
      InvAt(s, h);
      if ToBeStopped(s, h) {
        var q :| q in s.requests && Stops(s.requests[q], h);
        assert q in f.requests && Stops(f.requests[q], h);
      }
      assert s.tx == Some(h) ==> Stops(f.requests[r], h);
      hide ProfileInv, Indexed;
    }
    hide Inv;
  }

  /** Every watcher that a request is going to stop is among the given ones. */
  ghost predicate TargetsAmong(s: State, watchers: set<nat>) {
    forall r, w :: r in s.requests && Stops(s.requests[r], w) ==> w in watchers
  }

  lemma SameGoalsSameTargets(s: State, f: State, watchers: set<nat>)
    requires SameGoals(s, f) && TargetsAmong(s, watchers)
    ensures TargetsAmong(f, watchers)
  {
    forall r, w | r in f.requests && Stops(f.requests[r], w) ensures w in watchers {
      assert Stops(s.requests[r], w);
    }
  }

  /** Request `x` starts a watcher while `y` is still in progress. */
  lemma StartsBeside(s: State, x: nat, y: nat, goal: Goal) returns (actions: seq<Action>, v: nat)
    requires Parked(s) && x in s.requests && y in s.requests && x != y
    requires GoalOf(s.requests[x]).Automatic? && GoalOf(s.requests[y]) == goal && s.profiles == Contrary(goal)
    requires TargetsAmong(s, s.watchers.Keys) && forall w :: w in s.updates ==> w in s.watchers
    ensures Path(s, actions)
    ensures var f := End(s, actions);
      && Parked(f) && Undisturbed(f, v) && At(f, v, Waiting)
      && y in f.requests && GoalOf(f.requests[y]) == goal && f.profiles == Contrary(goal)
  {
    hide Path, End, Next, Contrary;
    var first := StopDelivered(s, x);
    var s1 := End(s, first);
    assert s1.requests[x] == Ready(Automatic);
    v := UnusedNumber(s.watchers.Keys);
    assert Enabled(s1, Start(x, v)) && Regular(s1, Start(x, v));
    StartStep(s1, x, v);
    var s2 := Next(s1, Start(x, v));
    assert SameGoals(s, s1);
    SameGoalsSameTargets(s, s1, s.watchers.Keys);
    assert !ToBeStopped(s2, v);
    hide ToBeStopped, Enabled, Regular, TargetsAmong, SameGoals;
    OneStep(s1, Start(x, v));
    Append(s, first, [Start(x, v)]);
    actions := first + [Start(x, v)];
  }

  lemma OverlapOverlooksHere(s: State, x: nat, y: nat, goal: Goal) returns (actions: seq<Action>, v: nat)
    requires Parked(s) && x in s.requests && y in s.requests && x != y
    requires GoalOf(s.requests[x]).Automatic? && GoalOf(s.requests[y]) == goal && s.profiles == Contrary(goal)
    requires TargetsAmong(s, s.watchers.Keys) && forall w :: w in s.updates ==> w in s.watchers
    ensures Path(s, actions) && Overlooks(End(s, actions), v)
  {
    hide Path, End, Contrary, TargetsAmong, ToBeStopped;
    var first, v' := StartsBeside(s, x, y, goal);
    v := v';
    var s1 := End(s, first);
    NothingStops(s1, v);
    var second := StopDelivered(s1, y);
    var s2 := End(s1, second);
    NotToBeStopped(s1, s2, v);
    var third := WorkingOverlooks(s2, v, y, goal);
    hide Parked, Undisturbed, Delivers, Conflicting, Overlooks;
    Append(s1, second, third);
    Append(s, first, second + third);
    actions := first + (second + third);
  }

  lemma BeginOverlooks(s: State, r: nat, goal: Goal, q: nat) returns (actions: seq<Action>, v: nat)
    requires Inv(s) && Unhindered(s) && Enabled(s, Begin(r, goal)) && q in s.requests
    requires goal.Automatic? || GoalOf(s.requests[q]).Automatic?
    ensures var f := Next(s, Begin(r, goal)); Path(f, actions) && Overlooks(End(f, actions), v)
  {
    hide Path, End, Next;
    var x, y := if goal.Automatic? then r else q, if goal.Automatic? then q else r;
    var other := if goal.Automatic? then GoalOf(s.requests[q]) else goal;
    var change := Change(Contrary(other));
    QuietStep(s, Begin(r, goal));
    var s1 := Next(s, Begin(r, goal));
    BeginClearable(s, r, goal, Contrary(other));
    assert Enabled(s1, change) && Regular(s1, change);
    QuietStep(s1, change);
    var s2 := Next(s1, change);
    EditedClearable(s1.(profiles := Contrary(other)), s2.edits);
    assert RefInv(s);
    assert TargetsAmong(s2, s.watchers.Keys);
    hide Inv, RefInv, Unhindered, Enabled, Regular, Clearable, Contrary;
    var first := LockClears(s2);
    var s3 := End(s2, first);
    SameGoalsSameTargets(s2, s3, s.watchers.Keys);
    hide TargetsAmong;
    var last;
    last, v := OverlapOverlooksHere(s3, x, y, other);
    hide AllParked, Overlooks;
    Append(s2, first, last);
    Prepend(s1, change, first + last);
    actions := [change] + (first + last);
  }

  lemma EditedClearable(s: State, edits: nat)
    requires Clearable(s)
    ensures Clearable(s.(edits := edits))
  {
    var f := s.(edits := edits);
    if s.lock.Some? {
      assert ToBeStopped(s, s.lock.value) ==> ToBeStopped(f, s.lock.value) by {
        assert f.requests == s.requests;
      }
    }
    hide ToBeStopped, Indexed;
  }

  /**
    From any state in which no watcher is stuck or about to restart: after a request begins every watcher
    stays up to date at the head of its loop, in every continuation, exactly when no other request is in
    progress or all of them, with this one, are manual.
   */
  lemma SafeToBeginIff(s: State, r: nat, goal: Goal)
    requires Inv(s) && Unhindered(s) && Enabled(s, Begin(r, goal))
    ensures KeepsPromise(Next(s, Begin(r, goal))) <==>
      forall q :: q in s.requests ==> goal.Manual? && GoalOf(s.requests[q]).Manual?
  {
    hide Next;
    if q :| q in s.requests && !(goal.Manual? && GoalOf(s.requests[q]).Manual?) {
      hide Inv, Unhindered;
      var actions, v := BeginOverlooks(s, r, goal, q);
      BrokenPromise(Next(s, Begin(r, goal)), actions, v);
    } else {
      StepKeepsInv(s, Begin(r, goal));
      hide Inv;
      InvKeepsPromise(Next(s, Begin(r, goal)));
    }
  }
}
