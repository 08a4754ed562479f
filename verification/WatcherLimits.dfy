/**
  Where the promises of automatic profile switching end: restarts and requests that overlap, and
  restarts with a full queue.
 */
module WatcherLimits {
  import opened Wrappers
  import opened ProcessIndex
  import opened ProfileRules
  import opened ProfileWatcher
  import opened WatcherSteps

  /** However things continue, every watcher that gets to the head of its loop is up to date there. */
  ghost predicate KeepsPromise(s: State) {
    forall actions, w ::
      Path(s, actions) && w in End(s, actions).watchers && End(s, actions).watchers[w].phase.Head? ==>
        UpToDate(End(s, actions), w)
  }

  lemma InvKeepsPromise(s: State)
    requires Inv(s)
    ensures KeepsPromise(s)
  {
    forall actions, w | Path(s, actions) && w in End(s, actions).watchers && End(s, actions).watchers[w].phase.Head?
      ensures UpToDate(End(s, actions), w)
    {
      InvAlways(s, actions);
      InvAt(End(s, actions), w);
    }
  }

  /** A watcher waits at the head of its loop with the wrong profile, and nothing will tell it. */
  ghost predicate Overlooks(s: State, w: nat) {
    At(s, w, Head) && !UpToDate(s, w)
  }

  // ---------- A watcher that works while a request is still in progress ----------

  const PLAYING := Profile("playing", map[], Some(Gamemode(None)))

  /** Profiles for which the rules, while a game runs, ask for something else than the request. */
  function Contrary(goal: Goal): Profiles {
    if goal.Manual? && goal.name.Some? then [Profile(goal.name.value, map[], None)] else [PLAYING]
  }

  const GAME := [GamemodeStart(0)]

  ghost predicate GameRuns(s: State) {
    s.table == Some(HandledAll(EMPTY, GAME))
  }

  lemma ContraryChoice(s: State, goal: Goal)
    requires GameRuns(s) && s.profiles == Contrary(goal)
    ensures HasTable(s)
    ensures goal.Manual? ==> Choice(s) != goal.name && NamedOrNone(s.profiles, goal.name)
    ensures goal.Automatic? ==> Choice(s).Some?
  {
    EmptyIndexed();
    EventsKeepIndexed(EMPTY, GAME);
    assert GAME[..0] == [];
    assert s.table.value.games == {0};
    if goal.Manual? && goal.name.Some? {
      assert s.profiles[0].name == goal.name.value;
      assert s.profiles[1..] == [] && !Active(s.table.value, s.profiles[0]);
      assert Choice(s) == FirstMatch(s.table.value, s.profiles[1..]);
    } else {
      assert Active(s.table.value, s.profiles[0]);
    }
  }

  /** Watcher `v` is the stored one and nothing is on its way to it, except what the counters stand for. */
  ghost predicate Undisturbed(s: State, v: nat) {
    && v in s.watchers && s.watchers[v].queue == [] && !s.watchers[v].reload
    && s.tx == Some(v) && v !in s.updates && !ToBeStopped(s, v)
  }

  /** The request has done its part with the watchers, and what it wants is not what the rules ask for. */
  ghost predicate Conflicting(s: State, r: nat, goal: Goal) {
    r in s.requests && !s.requests[r].Stopping? && GoalOf(s.requests[r]) == goal && s.profiles == Contrary(goal)
  }

  lemma NothingStops(s: State, v: nat)
    requires !ToBeStopped(s, v)
    ensures forall r :: r in s.requests ==> !Stops(s.requests[r], v)
  {}

  lemma NotToBeStopped(s: State, f: State, v: nat)
    requires !ToBeStopped(s, v)
    requires forall r :: r in f.requests && f.requests[r].Stopping? ==>
      r in s.requests && f.requests[r] == s.requests[r]
    ensures !ToBeStopped(f, v)
  {
    forall r | r in f.requests ensures !Stops(f.requests[r], v) {
      if f.requests[r].Stopping? { assert !Stops(s.requests[r], v); }
    }
  }

  lemma ManualOverlooks(s: State, v: nat, r: nat, goal: Goal) returns (actions: seq<Action>)
    requires Undisturbed(s, v) && At(s, v, Head) && s.edits == 0 && s.deletes == 0
    requires Conflicting(s, r, goal) && goal.Manual? && GameRuns(s)
    ensures Path(s, actions) && Overlooks(End(s, actions), v)
  {
    hide Path, End, Next;
    ContraryChoice(s, goal);
    hide FirstMatch;
    var s1 := s;
    if s.requests[r].Ready? {
      assert Enabled(s, Choose(r)) && Regular(s, Choose(r));
      QuietStep(s, Choose(r));
      s1 := Next(s, Choose(r));
      NotToBeStopped(s, s1, v);
    }
    assert s1.requests[r] == Writing(goal.name);
    var write := WriteChoice(r);
    assert Enabled(s1, write) && Regular(s1, write);
    QuietStep(s1, write);
    var f := Next(s1, write);
    NotToBeStopped(s1, f, v);
    hide Enabled, Regular, ToBeStopped;
    if s.requests[r].Ready? {
      actions := Two(s, Choose(r), write);
    } else {
      OneStep(s, write);
      actions := [write];
    }
  }

  /** The sender of `v` is overwritten, so that it hears of no later edit. */
  lemma AutomaticOverlooks(s: State, v: nat, r: nat, goal: Goal) returns (actions: seq<Action>)
    requires Undisturbed(s, v) && At(s, v, Head) && s.current == Some("playing")
    requires Conflicting(s, r, goal) && goal.Automatic? && GameRuns(s)
    ensures Path(s, actions) && Overlooks(End(s, actions), v)
  {
    hide Path, End, Next;
    var u := UnusedNumber(s.watchers.Keys);
    assert Enabled(s, Start(r, u)) && Regular(s, Start(r, u));
    StartStep(s, r, u);
    var s1 := Next(s, Start(r, u));
    NotToBeStopped(s, s1, v);
    assert Enabled(s1, Change([])) && Regular(s1, Change([]));
    QuietStep(s1, Change([]));
    NotToBeStopped(s1, Next(s1, Change([])), v);
    hide Enabled, Regular, ToBeStopped, HandledAll;
    actions := Two(s, Start(r, u), Change([]));
  }

  // ---------- Edits are announced before the request goes on ----------

  lemma {:induction false} DeletesFinish(s: State) returns (actions: seq<Action>)
    ensures Path(s, actions) && End(s, actions) == s.(edits := s.edits + s.deletes, deletes := 0)
    decreases s.deletes
  {
    if s.deletes == 0 {
      actions := [];
    } else {
      var remove := Remove(s.profiles);
      assert Enabled(s, remove) && Regular(s, remove);
      hide Path, End, Next, Enabled, Regular;
      QuietStep(s, remove);
      actions := DeletesFinish(Next(s, remove));
      Prepend(s, remove, actions);
      actions := [remove] + actions;
    }
  }

  lemma UpdateArrives(s: State, v: nat) returns (actions: seq<Action>)
    requires Undisturbed(s, v) && At(s, v, Head) && s.edits > 0
    ensures Path(s, actions)
    ensures End(s, actions) == With(s, v, s.watchers[v].(queue := [Update])).(edits := s.edits - 1)
  {
    hide Path, End, Next;
    var me := s.watchers[v];
    assert Enabled(s, Notify) && Regular(s, Notify);
    QuietStep(s, Notify);
    var s1 := Next(s, Notify);
    assert s1 == s.(edits := s.edits - 1, updates := s.updates + multiset{v});
    assert Enabled(s1, SendUpdate(v)) && Regular(s1, SendUpdate(v));
    SendUpdateStep(s1, v);
    assert s1.updates - multiset{v} == s.updates;
    assert me.queue + [Update] == [Update];
    hide Enabled, Regular, ToBeStopped;
    actions := Two(s, Notify, SendUpdate(v));
  }

  /** One edit is announced to `v`, which updates the profile to what it is already. */
  lemma EditAnnounced(s: State, v: nat) returns (actions: seq<Action>)
    requires Undisturbed(s, v) && Listens(s, v) && s.edits > 0 && s.current == Choice(s)
    ensures Path(s, actions) && End(s, actions) == s.(edits := s.edits - 1)
  {
    hide Path, End, Indexed, FirstMatch;
    var first := UpdateArrives(s, v);
    hide ToBeStopped;
    var second := TakesUpdate(End(s, first), v);
    var me := s.watchers[v];
    assert [Update][1..] == [];
    WithTwice(s, v, me.(queue := [Update]), me);
    assert With(s, v, me) == s;
    Append(s, first, second);
    actions := first + second;
  }

  lemma {:induction false} EditsAnnounced(s: State, v: nat) returns (actions: seq<Action>)
    requires Undisturbed(s, v) && Listens(s, v) && s.current == Choice(s)
    ensures Path(s, actions) && End(s, actions) == s.(edits := 0)
    decreases s.edits
  {
    if s.edits == 0 {
      actions := [];
    } else {
      hide Path, End, Indexed, FirstMatch;
      var first := EditAnnounced(s, v);
      var s1 := End(s, first);
      NotToBeStopped(s, s1, v);
      var second := EditsAnnounced(s1, v);
      Append(s, first, second);
      actions := first + second;
    }
  }

  /** A stored watcher that takes the lock while a request is in progress can be left with the wrong profile. */
  lemma WorkingOverlooks(s: State, v: nat, r: nat, goal: Goal) returns (actions: seq<Action>)
    requires Undisturbed(s, v) && At(s, v, Waiting) && s.lock.None? && Conflicting(s, r, goal)
    ensures Path(s, actions) && Overlooks(End(s, actions), v)
  {
    hide Path, End, HandledAll;
    var first := StartsUp(s, v, GAME);
    var s1 := End(s, first);
    ContraryChoice(s1, goal);
    if goal.Automatic? { PlayingChosen(s1); }
    hide FirstMatch, Indexed, Contrary, NamedOrNone;
    NotToBeStopped(s, s1, v);
    var second := DeletesFinish(s1);
    var s2 := End(s1, second);
    NotToBeStopped(s1, s2, v);
    var third := EditsAnnounced(s2, v);
    var s3 := End(s2, third);
    NotToBeStopped(s2, s3, v);
    var last: seq<Action>;
    if goal.Manual? {
      last := ManualOverlooks(s3, v, r, goal);
    } else {
      last := AutomaticOverlooks(s3, v, r, goal);
    }
    hide Overlooks, Undisturbed, Conflicting, GameRuns;
    Append(s2, third, last);
    Append(s1, second, third + last);
    Append(s, first, second + (third + last));
    actions := first + (second + (third + last));
  }

  lemma PlayingChosen(s: State)
    requires GameRuns(s) && s.profiles == [PLAYING]
    ensures Choice(s) == Some("playing")
  {
    assert GAME[..0] == [];
    assert s.table.value.games == {0};
    assert Active(s.table.value, s.profiles[0]);
  }

  // ---------- Delivering the Stop of a request ----------

  /** The watcher does not work; one that waits is as it was started, but for its queue. */
  predicate Rests(watcher: Watcher) {
    !Holding(watcher.phase) && |watcher.queue| <= CAPACITY && (watcher.phase.Waiting? ==> !watcher.reload)
  }

  ghost predicate Parked(s: State) {
    s.lock.None? && forall x :: x in s.watchers ==> Rests(s.watchers[x])
  }

  /** The request has its Stop delivered; `f` differs from `s` otherwise only in the watcher to be stopped. */
  ghost predicate Delivers(s: State, r: nat, f: State)
    requires r in s.requests
  {
    && Parked(f)
    && f == s.(watchers := f.watchers, current := f.current, table := f.table, requests := f.requests)
    && f.requests == (if s.requests[r].Stopping? then s.requests[r := Ready(s.requests[r].goal)] else s.requests)
    && f.watchers.Keys == s.watchers.Keys
    && forall y :: y in s.watchers && !Stops(s.requests[r], y) ==> f.watchers[y] == s.watchers[y]
  }

  lemma StopSent(s: State, r: nat) returns (actions: seq<Action>)
    requires Parked(s) && StopCanBeSent(s, r)
    ensures Path(s, actions) && Delivers(s, r, End(s, actions))
  {
    hide Path, End, Next;
    SendStopStep(s, r);
    OneStep(s, SendStop(r));
    actions := [SendStop(r)];
  }

  /** A watcher with a full queue has to work some of it off first, and then leaves. */
  lemma StopSentLater(s: State, r: nat, x: nat) returns (actions: seq<Action>)
    requires Parked(s) && r in s.requests && Stops(s.requests[r], x) && Full(s, x)
    ensures Path(s, actions) && Delivers(s, r, End(s, actions))
  {
    hide Path, End, Next, Indexed, HandledAll, FirstMatch;
    var queue := s.watchers[x].queue;
    var first := StartsUp(s, x, []);
    var s1 := End(s, first);
    if queue[0].Stop? {
      var second := TakesStop(s1, x);
      var s2 := End(s1, second);
      var third := StopSent(s2, r);
      Append(s1, second, third);
      Append(s, first, second + third);
      actions := first + (second + third);
    } else {
      var second := TakesUpdate(s1, x);
      var s2 := End(s1, second);
      assert s2.watchers[x].queue == queue[1..];
      SendStopStep(s2, r);
      OneStep(s2, SendStop(r));
      var s3 := Next(s2, SendStop(r));
      assert s3.watchers[x].queue == queue[1..] + [Stop];
      var last := WorksOff(s3, x);
      Prepend(s2, SendStop(r), last);
      Append(s1, second, [SendStop(r)] + last);
      Append(s, first, second + ([SendStop(r)] + last));
      actions := first + (second + ([SendStop(r)] + last));
    }
  }

  lemma StopDelivered(s: State, r: nat) returns (actions: seq<Action>)
    requires Parked(s) && r in s.requests
    ensures Path(s, actions) && Delivers(s, r, End(s, actions))
  {
    if !s.requests[r].Stopping? {
      actions := [];
    } else if StopCanBeSent(s, r) {
      actions := StopSent(s, r);
    } else {
      actions := StopSentLater(s, r, s.requests[r].target.value);
    }
  }

  // ---------- Restarts that overlap with requests ----------

  /** The watcher leaves, and its successor waits, while the profiles are edited. */
  lemma EditAndLeave(s: State, w: nat, v: nat, after: Profiles) returns (actions: seq<Action>)
    requires At(s, w, Leaving) && |s.watchers[w].queue| <= CAPACITY && v != w && Undisturbed(s, v)
    requires forall x :: x in s.watchers && x != w ==> Rests(s.watchers[x])
    ensures Path(s, actions)
    ensures var f := End(s, actions);
      && Parked(f) && Undisturbed(f, v) && f.watchers[v] == s.watchers[v]
      && f.profiles == after && f.requests == s.requests
  {
    hide Path, End, Next, ToBeStopped;
    assert Rests(s.watchers[w].(phase := Gone));
    hide Rests;
    assert Enabled(s, Change(after)) && Regular(s, Change(after));
    QuietStep(s, Change(after));
    var s1 := Next(s, Change(after));
    assert Enabled(s1, Release(w)) && Regular(s1, Release(w));
    MoveStep(s1, Release(w), w);
    NotToBeStopped(s, Next(s1, Release(w)), v);
    hide Enabled, Regular;
    actions := Two(s, Change(after), Release(w));
  }

  lemma RestartOverlooks(s: State, w: nat, v: nat, r: nat) returns (actions: seq<Action>)
    requires Inv(s) && Enabled(s, Reload(w, v)) && r in s.requests
    ensures var f := Next(s, Reload(w, v)); Path(f, actions) && Overlooks(End(f, actions), v)
  {
    hide Path, End, Next, Inv, Contrary, ToBeStopped, Enabled;
    var goal := GoalOf(s.requests[r]);
    var s1 := Next(s, Reload(w, v));
    AfterRestart(s, w, v, r);
    var first := EditAndLeave(s1, w, v, Contrary(goal));
    var s2 := End(s1, first);
    NothingStops(s2, v);
    var second := StopDelivered(s2, r);
    var s3 := End(s2, second);
    NotToBeStopped(s2, s3, v);
    var third := WorkingOverlooks(s3, v, r, goal);
    hide Parked, Undisturbed, Delivers, Conflicting, Overlooks;
    Append(s2, second, third);
    Append(s1, first, second + third);
    actions := first + (second + third);
  }

  lemma AfterRestart(s: State, w: nat, v: nat, r: nat)
    requires Inv(s) && Enabled(s, Reload(w, v)) && r in s.requests
    ensures var f := Next(s, Reload(w, v));
      && f.requests == s.requests && Undisturbed(f, v) && f.watchers[v] == NEW_WATCHER
      && v != w && At(f, w, Leaving) && |f.watchers[w].queue| <= CAPACITY
      && (forall x :: x in f.watchers && x != w ==> Rests(f.watchers[x]))
  {
    hide Next, NextWatchers;
    RestartStep(s, w, v);
    FrameNext(s, Reload(w, v));
    RestartWatchers(s, w, v);
    InvAt(s, w);
    forall x | x in s.watchers && x != w ensures Rests(s.watchers[x]) {
      InvAt(s, x);
    }
    forall q | q in s.requests ensures !Stops(s.requests[q], v) {}
    hide TableInv, LedInv, ProfileInv, LockAgrees;
  }

  lemma RestartWatchers(s: State, w: nat, v: nat)
    requires Enabled(s, Reload(w, v))
    ensures Next(s, Reload(w, v)).watchers == NextWatchers(s, Reload(w, v))
  {
    hide NextWatchers;
  }

  /**
    A watcher that restarts itself is up to date whenever it or its successors get to the head of their
    loops, however things continue, exactly when no request is in progress at that time.
   */
  lemma SafeToRestartIff(s: State, w: nat, v: nat)
    requires Inv(s) && Enabled(s, Reload(w, v))
    ensures KeepsPromise(Next(s, Reload(w, v))) <==> s.requests == map[]
  {
    if r :| r in s.requests {
      var actions := RestartOverlooks(s, w, v, r);
      assert !UpToDate(End(Next(s, Reload(w, v)), actions), v);
    } else {
      assert s.requests == map[];
      StepKeepsInv(s, Reload(w, v));
      InvKeepsPromise(Next(s, Reload(w, v)));
    }
  }

  // ---------- Requests that overlap ----------

  ghost predicate InProgress(s: State, r: nat, goal: Goal) {
    r in s.requests && GoalOf(s.requests[r]) == goal
  }

  /** Wherever a run has got to, a request of goal `b` may begin while one of goal `a` is in progress. */
  ghost predicate SafeTogether(a: Goal, b: Goal) {
    forall start, actions, q, r | Initial(start) && Path(start, actions) ::
      InProgress(End(start, actions), q, a) && Enabled(End(start, actions), Begin(r, b)) ==>
        KeepsPromise(Next(End(start, actions), Begin(r, b)))
  }

  function StartWith(profiles: Profiles): State {
    State(profiles, None, None, None, None, map[], map[], multiset{}, 0, 0)
  }

  /** Both requests have taken no sender, so they need not stop a watcher; `x` starts one. */
  lemma BothGoOn(profiles: Profiles, a: Goal, b: Goal, x: nat) returns (s: State, actions: seq<Action>)
    requires x in {0, 1} && (if x == 0 then a else b).Automatic?
    ensures var both := StartWith(profiles).(requests := map[0 := Stopping(None, a), 1 := Stopping(None, b)]);
      Path(both, actions) && End(both, actions) == s
    ensures s == StartWith(profiles).(watchers := map[0 := NEW_WATCHER], tx := Some(0),
                                      requests := map[1 - x := Ready(if x == 0 then b else a)])
  {
    hide Path, End, Next;
    var both := StartWith(profiles).(requests := map[0 := Stopping(None, a), 1 := Stopping(None, b)]);
    SendStopStep(both, 0);
    var s1 := Next(both, SendStop(0));
    SendStopStep(s1, 1);
    var s2 := Next(s1, SendStop(1));
    assert s2 == StartWith(profiles).(requests := map[0 := Ready(a), 1 := Ready(b)]);
    StartStep(s2, x, 0);
    s := Next(s2, Start(x, 0));
    assert s.requests == map[1 - x := Ready(if x == 0 then b else a)];
    actions := Three(both, SendStop(0), SendStop(1), Start(x, 0));
  }

  lemma OverlapOverlooks(a: Goal, b: Goal) returns (start: State, actions: seq<Action>)
    requires a.Automatic? || b.Automatic?
    ensures Initial(start) && Enabled(start, Begin(0, a)) && Regular(start, Begin(0, a))
    ensures Next(start, Begin(0, a)).requests == map[0 := Stopping(None, a)]
    ensures var s := Next(start, Begin(0, a));
      && Enabled(s, Begin(1, b))
      && Path(Next(s, Begin(1, b)), actions) && Overlooks(End(Next(s, Begin(1, b)), actions), 0)
  {
    hide Path, End, Next;
    var x := if a.Automatic? then 0 else 1;
    var goal := if a.Automatic? then b else a;
    var profiles := Contrary(goal);
    start := StartWith(profiles);
    QuietStep(start, Begin(0, a));
    var s1 := Next(start, Begin(0, a));
    QuietStep(s1, Begin(1, b));
    var both := Next(s1, Begin(1, b));
    assert both.requests == map[0 := Stopping(None, a), 1 := Stopping(None, b)];
    assert both == StartWith(profiles).(requests := map[0 := Stopping(None, a), 1 := Stopping(None, b)]);
    var s2, first := BothGoOn(profiles, a, b, x);
    assert !ToBeStopped(s2, 0);
    hide ToBeStopped, Contrary;
    var last := WorkingOverlooks(s2, 0, 1 - x, goal);
    Append(both, first, last);
    actions := first + last;
  }

  /** Requests to set the profile may overlap exactly when neither of them turns on automatic switching. */
  lemma OverlapSafeIff(a: Goal, b: Goal)
    ensures SafeTogether(a, b) <==> a.Manual? && b.Manual?
  {
    hide Next, KeepsPromise, Inv;
    if a.Manual? && b.Manual? {
      forall start, actions, q, r | Initial(start) && Path(start, actions)
        && InProgress(End(start, actions), q, a) && Enabled(End(start, actions), Begin(r, b))
        ensures KeepsPromise(Next(End(start, actions), Begin(r, b)))
      {
        InitialInv(start);
        InvAlways(start, actions);
        ManualOverlap(End(start, actions), q, r, b);
      }
    } else {
      var start, actions := OverlapOverlooks(a, b);
      OneStep(start, Begin(0, a));
      var s := Next(start, Begin(0, a));
      assert InProgress(s, 0, a);
      BrokenPromise(Next(s, Begin(1, b)), actions, 0);
    }
  }

  lemma {:induction false} BrokenPromise(s: State, actions: seq<Action>, w: nat)
    requires Path(s, actions) && Overlooks(End(s, actions), w)
    ensures !KeepsPromise(s)
  {}

  lemma ManualOverlap(s: State, q: nat, r: nat, b: Goal)
    requires Inv(s) && q in s.requests && GoalOf(s.requests[q]).Manual? && b.Manual? && Enabled(s, Begin(r, b))
    ensures KeepsPromise(Next(s, Begin(r, b)))
  {
    assert Regular(s, Begin(r, b));
    StepKeepsInv(s, Begin(r, b));
    InvKeepsPromise(Next(s, Begin(r, b)));
  }

  // ---------- Runs of the program in which it happens ----------

  /** The state of the program with one watcher, at the head of its loop, and nothing else going on. */
  function Running(profiles: Profiles, watcher: Watcher): State {
    StartWith(profiles).(table := Some(EMPTY), lock := Some(0), tx := Some(0), watchers := map[0 := watcher])
  }

  const LISTENING := Watcher([], Head, false)

  lemma RunningReached() returns (actions: seq<Action>)
    ensures Initial(StartWith([])) && Path(StartWith([]), actions)
    ensures End(StartWith([]), actions) == Running([], LISTENING)
  {
    hide Path, End, Next;
    var s := StartWith([]);
    QuietStep(s, Begin(0, Automatic));
    var s1 := Next(s, Begin(0, Automatic));
    SendStopStep(s1, 0);
    var s2 := Next(s1, SendStop(0));
    assert s2.requests == map[0 := Ready(Automatic)];
    StartStep(s2, 0, 0);
    var s3 := Next(s2, Start(0, 0));
    assert s3.watchers == map[0 := NEW_WATCHER] && s3.requests == map[];
    var first := Three(s, Begin(0, Automatic), SendStop(0), Start(0, 0));
    var last := StartsUp(s3, 0, []);
    assert s3.watchers[0 := LISTENING] == map[0 := LISTENING];
    Append(s, first, last);
    actions := first + last;
  }

  /**
    A run, with one restart in the middle of a request of any goal, after which a watcher waits with the
    wrong profile and nothing will tell it.
   */
  lemma BadRestartReached(goal: Goal) returns (before: seq<Action>, after: seq<Action>)
    ensures Path(StartWith([]), before)
    ensures var s := End(StartWith([]), before);
      && Enabled(s, Reload(0, 1)) && InProgress(s, 1, goal)
      && Path(Next(s, Reload(0, 1)), after) && Overlooks(End(Next(s, Reload(0, 1)), after), 1)
  {
    hide Path, End, Next;
    var first := RunningReached();
    var s1 := Running([], LISTENING);
    OwnStep(s1, Quiet(0));
    SilenceStep(s1, 0);
    var s2 := Next(s1, Quiet(0));
    assert s2.watchers == map[0 := LISTENING.(reload := true)];
    QuietStep(s2, Begin(1, goal));
    var s3 := Next(s2, Begin(1, goal));
    assert Enabled(s3, Reload(0, 1)) && InProgress(s3, 1, goal);
    var second := Two(s1, Quiet(0), Begin(1, goal));
    Append(StartWith([]), first, second);
    before := first + second;
    InitialInv(StartWith([]));
    InvAlways(StartWith([]), before);
    hide Inv, Enabled;
    after := RestartOverlooks(s3, 0, 1, 1);
  }

  // ---------- Restarts with a full queue ----------

  lemma StaysStuck(s: State, a: Action, w: nat)
    requires Inv(s) && Enabled(s, a) && w in s.watchers && s.watchers[w].phase.Stuck?
    ensures Actor(a).None? && Next(s, a).table == s.table
    ensures w in Next(s, a).watchers && Next(s, a).watchers[w].phase == s.watchers[w].phase
  {
    hide Next, NextCurrent, NextUpdates, NextRequests, NextProfiles, NextEdits, NextDeletes, NextPhase;
    NeverUnstuck(s, a);
    InvAt(s, w);
    if Actor(a).Some? { InvAt(s, Actor(a).value); }
    NextAt(s, a, w);
    FrameNext(s, a);
    hide Inv, Delivered, Full, TableInv, StuckInv, LedInv, ProfileInv, NamedOrNone;
  }

  /** Once a watcher got stuck in its restart, no watcher takes any step again. */
  lemma {:induction false} StuckForEver(s: State, actions: seq<Action>, w: nat)
    requires Inv(s) && Path(s, actions) && w in s.watchers && s.watchers[w].phase.Stuck?
    ensures forall a :: a in actions ==> Actor(a).None?
    ensures At(End(s, actions), w, s.watchers[w].phase) && End(s, actions).table == s.table
    decreases |actions|
  {
    hide Inv, Next, Enabled, Regular;
    if actions != [] {
      StaysStuck(s, actions[0], w);
      StepKeepsInv(s, actions[0]);
      StuckForEver(Next(s, actions[0]), actions[1..], w);
      assert actions == [actions[0]] + actions[1..];
    }
  }

  /** Some watcher can get to the head of its loop. */
  ghost predicate CanWork(s: State) {
    exists actions, x :: Path(s, actions) && At(End(s, actions), x, Head)
  }

  lemma StuckCannotWork(s: State, w: nat)
    requires Inv(s) && w in s.watchers && s.watchers[w].phase.Stuck?
    ensures !CanWork(s)
  {
    forall actions, x | Path(s, actions) ensures !At(End(s, actions), x, Head) {
      StuckForEver(s, actions, w);
      InvAlways(s, actions);
      var f := End(s, actions);
      InvAt(f, w);
      if x in f.watchers { InvAt(f, x); }
    }
  }

  /** Without full queue the watcher leaves, and its successor takes the lock and updates the profile. */
  lemma RestartWorks(s: State, w: nat, v: nat) returns (actions: seq<Action>)
    requires Enabled(s, Reload(w, v)) && !GetsStuck(s, Reload(w, v))
    ensures var f := Next(s, Reload(w, v)); Path(f, actions) && At(End(f, actions), v, Head)
  {
    hide Path, End, Next, HandledAll, Indexed, FirstMatch;
    ReloadStep(s, w, v);
    var s1 := Next(s, Reload(w, v));
    assert Enabled(s1, Release(w)) && Regular(s1, Release(w));
    MoveStep(s1, Release(w), w);
    hide Enabled, Regular, GetsStuck;
    actions := StartsUp(Next(s1, Release(w)), v, []);
    Prepend(s1, Release(w), actions);
    actions := [Release(w)] + actions;
  }

  /**
    After a restart some watcher can work again exactly when there was room in the queue of the stored
    watcher, which is its own or that of a successor that waits for the lock.
   */
  lemma RestartWorksIff(s: State, w: nat, v: nat)
    requires Inv(s) && Enabled(s, Reload(w, v))
    ensures CanWork(Next(s, Reload(w, v))) <==>
      !(s.tx.Some? && Alive(s, s.tx.value) && |s.watchers[s.tx.value].queue| == 5)
  {
    var a := Reload(w, v);
    if s.tx.Some? { InvAt(s, s.tx.value); }
    if GetsStuck(s, a) {
      assert forall r :: r !in s.requests;
      StepKeepsInv(s, a);
      NextAt(s, a, w);
      hide Next, Inv, StuckInv;
      StuckCannotWork(Next(s, a), w);
    } else {
      hide Next, Inv, Enabled;
      var actions := RestartWorks(s, w, v);
      assert At(End(Next(s, a), actions), v, Head);
    }
  }

  /** Edits of the profiles, announced one after the other, fill the queue of a watcher that waits for quiet. */
  lemma {:induction false} QueueFills(s: State, n: nat) returns (actions: seq<Action>)
    requires At(s, 0, Debounce) && s.tx == Some(0) && |s.watchers[0].queue| + n <= CAPACITY
    requires s.edits == 0 && 0 !in s.updates
    ensures Path(s, actions)
    ensures 0 in End(s, actions).watchers && End(s, actions) == With(s, 0, End(s, actions).watchers[0])
    ensures var old0, new0 := s.watchers[0], End(s, actions).watchers[0];
      new0.phase == old0.phase && new0.reload == old0.reload && |new0.queue| == |old0.queue| + n
    decreases n
  {
    if n == 0 {
      actions := [];
      assert With(s, 0, s.watchers[0]) == s;
    } else {
      var first := OneMore(s);
      hide Path, End;
      var s1 := End(s, first);
      var last := QueueFills(s1, n - 1);
      WithTwice(s, 0, s1.watchers[0], End(s1, last).watchers[0]);
      Append(s, first, last);
      actions := first + last;
    }
  }

  lemma OneMore(s: State) returns (actions: seq<Action>)
    requires At(s, 0, Debounce) && s.tx == Some(0) && |s.watchers[0].queue| < CAPACITY
    requires s.edits == 0 && 0 !in s.updates
    ensures Path(s, actions)
    ensures End(s, actions) == With(s, 0, s.watchers[0].(queue := s.watchers[0].queue + [Update]))
  {
    hide Path, End, Next;
    var change := Change(s.profiles);
    assert Enabled(s, change) && Regular(s, change);
    QuietStep(s, change);
    var s1 := Next(s, change);
    assert Enabled(s1, Notify) && Regular(s1, Notify);
    QuietStep(s1, Notify);
    var s2 := Next(s1, Notify);
    assert Enabled(s2, SendUpdate(0)) && Regular(s2, SendUpdate(0));
    SendUpdateStep(s2, 0);
    assert s2.updates - multiset{0} == s.updates;
    hide Enabled, Regular;
    actions := Three(s, change, Notify, SendUpdate(0));
  }

  const DAEMON := Exec(1, Some(ProcessInfo("gamemoded", "")))

  /** The gamemode daemon starts, and five edits are announced before the watcher restarts because of it. */
  lemma StuckReached() returns (actions: seq<Action>)
    ensures Path(StartWith([]), actions) && At(End(StartWith([]), actions), 0, Stuck(0))
  {
    hide Path, End, Next;
    var first := RunningReached();
    var s1 := Running([], LISTENING);
    var second := BusyReached(s1);
    var s2 := End(s1, second);
    var third := QueueFills(s2, 5);
    var s3 := End(s2, third);
    var me := s3.watchers[0];
    assert Enabled(s3, DebounceEnds(0)) && Regular(s3, DebounceEnds(0));
    MoveStep(s3, DebounceEnds(0), 0);
    var s4 := Next(s3, DebounceEnds(0));
    var fourth := Updates(s4, 0);
    var s5 := End(s4, fourth);
    assert Enabled(s5, Reload(0, 1)) && Regular(s5, Reload(0, 1)) && Full(s5, 0);
    NextAt(s5, Reload(0, 1), 0);
    assert NextPhase(s5, Reload(0, 1)) == Stuck(0);
    hide Enabled, Regular, NextPhase, Running, Full;
    OneStep(s5, Reload(0, 1));
    Append(s4, fourth, [Reload(0, 1)]);
    Prepend(s3, DebounceEnds(0), fourth + [Reload(0, 1)]);
    Append(s2, third, [DebounceEnds(0)] + (fourth + [Reload(0, 1)]));
    Append(s1, second, third + ([DebounceEnds(0)] + (fourth + [Reload(0, 1)])));
    Append(StartWith([]), first, second + (third + ([DebounceEnds(0)] + (fourth + [Reload(0, 1)]))));
    actions := first + (second + (third + ([DebounceEnds(0)] + (fourth + [Reload(0, 1)]))));
  }

  lemma BusyReached(s: State) returns (actions: seq<Action>)
    requires s == Running([], LISTENING)
    ensures Path(s, actions)
    ensures HasTable(End(s, actions))
    ensures End(s, actions) == Running([], Watcher([], Debounce, true)).(table := End(s, actions).table)
  {
    hide Path, End, Next;
    assert Enabled(s, Observe(0, DAEMON)) && Regular(s, Observe(0, DAEMON));
    OwnStep(s, Observe(0, DAEMON));
    ObserveStep(s, 0, DAEMON);
    EmptyIndexed();
    HandledKeepsIndexed(EMPTY, DAEMON);
    var f := Next(s, Observe(0, DAEMON));
    assert f.watchers == map[0 := Watcher([], Debounce, true)];
    hide Handled, Indexed, Enabled, Regular;
    OneStep(s, Observe(0, DAEMON));
    actions := [Observe(0, DAEMON)];
  }
}
