/** What single steps of `ProfileWatcher`, and short stretches of them, do to the whole state. */
module WatcherSteps {
  import opened Wrappers
  import opened ProcessIndex
  import opened ProfileRules
  import opened ProfileWatcher

  // ---------- Steps and the watchers ----------

  /** A command enters the queue of a watcher that still listens. */
  function Delivery(watchers: map<nat, Watcher>, to: nat, command: Command): map<nat, Watcher> {
    if to in watchers && !watchers[to].phase.Gone?
    then watchers[to := watchers[to].(queue := watchers[to].queue + [command])]
    else watchers
  }

  /** Requests and edits change no watcher, except that some start one or send a command. */
  lemma OutsideStep(s: State, a: Action)
    requires Enabled(s, a) && Actor(a).None?
    ensures NextWatchers(s, a) ==
      if a.Start? then s.watchers[a.spawned := NEW_WATCHER]
      else if a.SendUpdate? then Delivery(s.watchers, a.to, Update)
      else if a.SendStop? && s.requests[a.r].target.Some? then Delivery(s.watchers, s.requests[a.r].target.value, Stop)
      else s.watchers
  {
    var to, command := if a.SendUpdate? then Some(a.to) else if a.SendStop? then s.requests[a.r].target else None,
                       if a.SendStop? then Stop else Update;
    forall w | w in s.watchers
      ensures NextWatcher(s, a, w) == (if to.Some? then Delivery(s.watchers, to.value, command) else s.watchers)[w]
    {}
  }

  /** A watcher's own step, unless it is a restart, changes no other watcher. */
  lemma OwnStep(s: State, a: Action)
    requires Enabled(s, a) && Actor(a).Some? && !Restarts(s, a)
    ensures NextWatchers(s, a) == s.watchers[Actor(a).value := NextWatcher(s, a, Actor(a).value)]
    ensures !a.Receive? ==> NextWatcher(s, a, Actor(a).value).queue == s.watchers[Actor(a).value].queue
  {
    hide NextPhase;
    forall w | w in s.watchers && w != Actor(a).value ensures NextWatcher(s, a, w) == s.watchers[w] {}
  }

  lemma RestartStep(s: State, w: nat, spawned: nat)
    requires Enabled(s, Reload(w, spawned)) && !GetsStuck(s, Reload(w, spawned))
    ensures var told := if s.tx.Some? then Delivery(s.watchers, s.tx.value, Stop) else s.watchers;
      w in told && NextWatchers(s, Reload(w, spawned)) == told[w := told[w].(phase := Leaving)][spawned := NEW_WATCHER]
  {
    var told := if s.tx.Some? then Delivery(s.watchers, s.tx.value, Stop) else s.watchers;
    forall u | u in s.watchers
      ensures NextWatcher(s, Reload(w, spawned), u) ==
        told[u].(phase := if u == w then Leaving else s.watchers[u].phase)
    {}
  }

  // ---------- Steps and the whole state ----------

  function With(s: State, x: nat, watcher: Watcher): State {
    s.(watchers := s.watchers[x := watcher])
  }

  lemma WithTwice(s: State, x: nat, first: Watcher, second: Watcher)
    ensures With(With(s, x, first), x, second) == With(s, x, second)
  {}

  /** A step of a watcher that only moves it on, as part of an update or to wait for or give up the lock. */
  lemma MoveStep(s: State, a: Action, x: nat)
    requires Enabled(s, a) && Actor(a) == Some(x)
    requires a.DoEvaluate? || a.DoCompare? || a.DoCheck? || a.DoWrite? || a.DebounceEnds? || a.Acquire? || a.Release?
    ensures Next(s, a) ==
      With(s, x, s.watchers[x].(phase := NextPhase(s, a))).(current := NextCurrent(s, a), lock := NextLock(s, a))
  {
    OwnStep(s, a);
    hide NextPhase;
  }

  lemma ReloadStep(s: State, w: nat, spawned: nat)
    requires Enabled(s, Reload(w, spawned))
    ensures Next(s, Reload(w, spawned)) ==
      if GetsStuck(s, Reload(w, spawned)) then With(s, w, s.watchers[w].(phase := Stuck(s.tx.value))).(tx := None)
      else
        var told := if s.tx.Some? then Delivery(s.watchers, s.tx.value, Stop) else s.watchers;
        s.(watchers := told[w := told[w].(phase := Leaving)][spawned := NEW_WATCHER], tx := Some(spawned),
            table := None)
  {
    var a := Reload(w, spawned);
    if GetsStuck(s, a) {
      OwnStep(s, a);
    } else {
      RestartStep(s, w, spawned);
      hide Delivery;
    }
    hide NextWatchers, Full;
  }

  lemma {:induction false} NoStep(s: State)
    ensures Path(s, []) && End(s, []) == s
  {}

  lemma {:induction false} OneStep(s: State, a: Action)
    requires Enabled(s, a) && Regular(s, a)
    ensures Path(s, [a]) && End(s, [a]) == Next(s, a)
  {
    assert [a][1..] == [];
    hide Enabled, Next, Regular;
  }

  lemma {:induction false} Prepend(s: State, a: Action, actions: seq<Action>)
    requires Enabled(s, a) && Regular(s, a) && Path(Next(s, a), actions)
    ensures Path(s, [a] + actions) && End(s, [a] + actions) == End(Next(s, a), actions)
  {
    assert ([a] + actions)[1..] == actions;
    hide Enabled, Next, Regular;
  }

  lemma {:induction false} Append(s: State, first: seq<Action>, second: seq<Action>)
    requires Path(s, first) && Path(End(s, first), second)
    ensures Path(s, first + second) && End(s, first + second) == End(End(s, first), second)
    decreases |first|
  {
    hide Enabled, Next, Regular;
    if first == [] {
      assert first + second == second;
    } else {
      Append(Next(s, first[0]), first[1..], second);
      assert (first + second)[1..] == first[1..] + second;
    }
  }

  // ---------- Stretches of a watcher's work ----------

  predicate ByWatchers(actions: seq<Action>) {
    forall a :: a in actions ==> Actor(a).Some?
  }

  function Choice(s: State): Option<string>
    requires s.table.Some?
  {
    FirstMatch(s.table.value, s.profiles)
  }

  ghost predicate At(s: State, x: nat, phase: Phase) {
    x in s.watchers && s.watchers[x].phase == phase
  }

  ghost predicate HasTable(s: State) {
    s.table.Some? && Indexed(s.table.value)
  }

  function AtHead(s: State, x: nat): State
    requires x in s.watchers
  {
    With(s, x, s.watchers[x].(phase := Head))
  }

  /** An uninterrupted update leaves the right profile and the watcher at the head of its loop. */
  lemma Updates(s: State, x: nat) returns (actions: seq<Action>)
    requires At(s, x, Evaluate) && HasTable(s)
    ensures Path(s, actions) && End(s, actions) == AtHead(s, x).(current := Choice(s))
    ensures ByWatchers(actions)
  {
    hide Next, Path, End, Indexed;
    EvaluatedIs(s.table.value, s.profiles);
    FirstMatchNamed(s.table.value, s.profiles);
    var me, chosen := s.watchers[x], Choice(s);
    MoveStep(s, DoEvaluate(x), x);
    assert Next(s, DoEvaluate(x)) == With(s, x, me.(phase := Compare(chosen)));
    assert NamedOrNone(s.profiles, chosen);
    hide FirstMatch, Evaluated, NamedOrNone;
    actions := Compares(Next(s, DoEvaluate(x)), x);
    WithTwice(s, x, me.(phase := Compare(chosen)), me.(phase := Head));
    Prepend(s, DoEvaluate(x), actions);
    actions := [DoEvaluate(x)] + actions;
  }

  lemma Compares(s: State, x: nat) returns (actions: seq<Action>)
    requires x in s.watchers && s.watchers[x].phase.Compare? && NamedOrNone(s.profiles, s.watchers[x].phase.chosen)
    ensures Path(s, actions) && End(s, actions) == AtHead(s, x).(current := s.watchers[x].phase.chosen)
    ensures ByWatchers(actions)
  {
    hide Next, Path, End, NamedOrNone;
    var me, chosen := s.watchers[x], s.watchers[x].phase.chosen;
    MoveStep(s, DoCompare(x), x);
    if s.current == chosen {
      OneStep(s, DoCompare(x));
      actions := [DoCompare(x)];
    } else {
      var s1 := Next(s, DoCompare(x));
      assert s1 == With(s, x, me.(phase := Check(chosen)));
      MoveStep(s1, DoCheck(x), x);
      var s2 := Next(s1, DoCheck(x));
      WithTwice(s, x, me.(phase := Check(chosen)), me.(phase := Write(chosen)));
      assert s2 == With(s, x, me.(phase := Write(chosen)));
      MoveStep(s2, DoWrite(x), x);
      WithTwice(s, x, me.(phase := Write(chosen)), me.(phase := Head));
      actions := Three(s, DoCompare(x), DoCheck(x), DoWrite(x));
    }
  }

  lemma Two(s: State, a: Action, b: Action) returns (actions: seq<Action>)
    requires Enabled(s, a) && Regular(s, a) && Enabled(Next(s, a), b) && Regular(Next(s, a), b)
    ensures Path(s, actions) && End(s, actions) == Next(Next(s, a), b)
    ensures actions == [a, b]
  {
    hide Enabled, Next, Regular, Path, End;
    OneStep(Next(s, a), b);
    Prepend(s, a, [b]);
    actions := [a] + [b];
  }

  lemma Three(s: State, a: Action, b: Action, c: Action) returns (actions: seq<Action>)
    requires Enabled(s, a) && Regular(s, a) && Enabled(Next(s, a), b) && Regular(Next(s, a), b)
    requires Enabled(Next(Next(s, a), b), c) && Regular(Next(Next(s, a), b), c)
    ensures Path(s, actions) && End(s, actions) == Next(Next(Next(s, a), b), c)
    ensures actions == [a, b, c]
  {
    hide Enabled, Next, Regular, Path, End;
    actions := Two(Next(s, a), b, c);
    Prepend(s, a, actions);
    actions := [a] + actions;
  }

  /** A watcher that waits takes the free lock, loads the table and updates the profile. */
  lemma StartsUp(s: State, x: nat, events: seq<Event>) returns (actions: seq<Action>)
    requires At(s, x, Waiting) && s.lock.None?
    ensures Path(s, actions) && ByWatchers(actions)
    ensures var loaded := s.(table := Some(HandledAll(EMPTY, events)), lock := Some(x));
      HasTable(loaded) && End(s, actions) == AtHead(loaded, x).(current := Choice(loaded))
  {
    hide Next, Path, End, Indexed, HandledAll, FirstMatch;
    EmptyIndexed();
    EventsKeepIndexed(EMPTY, events);
    var me := s.watchers[x];
    MoveStep(s, Acquire(x), x);
    var s1 := Next(s, Acquire(x));
    LoadStep(s1, x, events);
    var s2 := Next(s1, Load(x, events));
    WithTwice(s, x, me.(phase := Loading), me.(phase := Evaluate));
    WithTwice(s, x, me.(phase := Evaluate), me.(phase := Head));
    var first := Two(s, Acquire(x), Load(x, events));
    var second := Updates(s2, x);
    Append(s, first, second);
    actions := first + second;
  }

  lemma {:induction false} LoadStep(s: State, x: nat, events: seq<Event>)
    requires At(s, x, Loading)
    ensures Enabled(s, Load(x, events))
    ensures Next(s, Load(x, events)) ==
      With(s, x, s.watchers[x].(phase := Evaluate)).(table := Some(HandledAll(EMPTY, events)))
  {
    OwnStep(s, Load(x, events));
    hide HandledAll;
  }

  lemma ObserveStep(s: State, w: nat, event: Event)
    requires Enabled(s, Observe(w, event)) && s.table.Some?
    ensures Next(s, Observe(w, event)) ==
      With(s, w, s.watchers[w].(phase := Debounce, reload := s.watchers[w].reload || DaemonStarted(event)))
        .(table := Some(Handled(s.table.value, event)))
  {
    OwnStep(s, Observe(w, event));
    hide Handled;
  }

  lemma SilenceStep(s: State, w: nat)
    requires Enabled(s, Quiet(w))
    ensures Next(s, Quiet(w)) == With(s, w, s.watchers[w].(reload := true))
  {
    OwnStep(s, Quiet(w));
  }

  ghost predicate Listens(s: State, x: nat) {
    At(s, x, Head) && !s.watchers[x].reload && HasTable(s)
  }

  lemma ReceiveStep(s: State, x: nat)
    requires Listens(s, x) && s.watchers[x].queue != []
    ensures Enabled(s, Receive(x))
    ensures var me := s.watchers[x];
      Next(s, Receive(x)) ==
        if me.queue[0].Stop? then With(s, x, me.(queue := me.queue[1..], phase := Leaving)).(table := None)
        else With(s, x, me.(queue := me.queue[1..], phase := Evaluate))
  {
    OwnStep(s, Receive(x));
  }

  lemma TakesUpdate(s: State, x: nat) returns (actions: seq<Action>)
    requires Listens(s, x) && s.watchers[x].queue != [] && s.watchers[x].queue[0].Update?
    ensures Path(s, actions)
    ensures var me := s.watchers[x]; End(s, actions) == With(s, x, me.(queue := me.queue[1..])).(current := Choice(s))
  {
    hide Next, Path, End, Indexed, FirstMatch;
    var me := s.watchers[x];
    ReceiveStep(s, x);
    WithTwice(s, x, me.(queue := me.queue[1..], phase := Evaluate), me.(queue := me.queue[1..]));
    actions := Updates(Next(s, Receive(x)), x);
    Prepend(s, Receive(x), actions);
    actions := [Receive(x)] + actions;
  }

  /** `x` has gone and given up the lock; all other watchers are as before. */
  ghost predicate HasLeft(s: State, x: nat, f: State) {
    && x in s.watchers && x in f.watchers
    && f.watchers[x].phase.Gone? && |f.watchers[x].queue| <= |s.watchers[x].queue|
    && f == With(s, x, f.watchers[x]).(current := f.current, table := None, lock := None)
  }

  lemma TakesStop(s: State, x: nat) returns (actions: seq<Action>)
    requires Listens(s, x) && s.watchers[x].queue != [] && s.watchers[x].queue[0].Stop?
    ensures Path(s, actions) && HasLeft(s, x, End(s, actions))
  {
    hide Next, Path, End, Indexed;
    var me := s.watchers[x];
    ReceiveStep(s, x);
    var s1 := Next(s, Receive(x));
    MoveStep(s1, Release(x), x);
    var me1 := me.(queue := me.queue[1..], phase := Leaving);
    WithTwice(s, x, me1, me1.(phase := Gone));
    actions := Two(s, Receive(x), Release(x));
  }

  /** A watcher that has been told to stop works off its queue up to that command and leaves. */
  lemma {:induction false} WorksOff(s: State, x: nat) returns (actions: seq<Action>)
    requires Listens(s, x) && Stop in s.watchers[x].queue
    ensures Path(s, actions) && HasLeft(s, x, End(s, actions))
    decreases |s.watchers[x].queue|
  {
    var me := s.watchers[x];
    assert me.queue == [me.queue[0]] + me.queue[1..];
    if me.queue[0].Stop? {
      actions := TakesStop(s, x);
    } else {
      hide Path, End, Next, Indexed, FirstMatch;
      var first := TakesUpdate(s, x);
      var s1 := End(s, first);
      var second := WorksOff(s1, x);
      var f := End(s1, second);
      WithTwice(s, x, me.(queue := me.queue[1..]), f.watchers[x]);
      Append(s, first, second);
      actions := first + second;
    }
  }

  // ---------- Stretches of requests and edits ----------

  lemma SendStopStep(s: State, r: nat)
    requires StopCanBeSent(s, r)
    ensures var target := s.requests[r].target;
      Next(s, SendStop(r)) == s.(
        watchers := if target.Some? then Delivery(s.watchers, target.value, Stop) else s.watchers,
        requests := s.requests[r := Ready(s.requests[r].goal)])
  {
    OutsideStep(s, SendStop(r));
    hide Delivery;
  }

  /** A step of a request or an edit that sends no command and starts no watcher. */
  lemma QuietStep(s: State, a: Action)
    requires Enabled(s, a) && Actor(a).None? && !a.Start? && !a.SendStop? && !a.SendUpdate?
    ensures Next(s, a) == s.(profiles := NextProfiles(s, a), current := NextCurrent(s, a), tx := NextTx(s, a),
      requests := NextRequests(s, a), updates := NextUpdates(s, a),
      edits := NextEdits(s, a), deletes := NextDeletes(s, a))
  {
    OutsideStep(s, a);
    hide NextWatcher, NamedOrNone;
  }

  lemma StartStep(s: State, r: nat, spawned: nat)
    requires Enabled(s, Start(r, spawned))
    ensures Next(s, Start(r, spawned)) ==
      s.(watchers := s.watchers[spawned := NEW_WATCHER], tx := Some(spawned), requests := s.requests - {r})
  {
    OutsideStep(s, Start(r, spawned));
  }

  lemma SendUpdateStep(s: State, to: nat)
    requires Enabled(s, SendUpdate(to))
    ensures Next(s, SendUpdate(to)) ==
      s.(watchers := Delivery(s.watchers, to, Update), updates := s.updates - multiset{to})
  {
    OutsideStep(s, SendUpdate(to));
    hide Delivery;
  }

  /**
    A manual request whose profile does not exist ends and leaves the current profile as it was. Otherwise
    it goes on to make its choice current, whatever else was.
   */
  lemma ChoiceTaken(s: State, r: nat)
    requires r in s.requests && s.requests[r].Ready? && s.requests[r].goal.Manual?
    ensures Enabled(s, Choose(r)) && Next(s, Choose(r)).current == s.current
    ensures var name, f := s.requests[r].goal.name, Next(s, Choose(r));
      if name.Some? && !Named(s.profiles, name.value) then f == s.(requests := s.requests - {r})
      else Enabled(f, WriteChoice(r)) && Next(f, WriteChoice(r)) == s.(current := name, requests := s.requests - {r})
  {
    hide Next;
    QuietStep(s, Choose(r));
    var f := Next(s, Choose(r));
    if r in f.requests {
      QuietStep(f, WriteChoice(r));
      assert s.requests[r := f.requests[r]] - {r} == s.requests - {r};
    }
    hide Named;
  }
}
