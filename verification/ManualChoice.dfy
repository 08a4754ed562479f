/**
  How long a choice made by hand stays in force. A request for it only tells the stored watcher to
  stop; watchers that have not read that yet may still replace the choice.
 */
module ManualChoice {
  import opened Wrappers
  import opened ProcessIndex
  import opened ProfileRules
  import opened ProfileWatcher
  import opened WatcherSteps
  import opened WatcherLimits
  import opened WatcherRequests
  import Config

  /** Nobody asks for anything: no new request, and no edit of the profiles. */
  predicate Undirected(actions: seq<Action>) {
    forall a :: a in actions ==> !a.Begin? && !a.Change? && !a.Remove? && !a.Unset?
  }

  /** The choice stays current, whatever the watchers do. */
  ghost predicate StaysChosen(s: State, name: Option<string>) {
    forall actions :: Path(s, actions) && Undirected(actions) ==> End(s, actions).current == name
  }

  /** Some course of events makes the rules ask for something else than `name`. */
  predicate RulesMayDiffer(profiles: Profiles, name: Option<string>) {
    name.Some? || exists i :: 0 <= i < |profiles| && profiles[i].rule.Some?
  }

  /** The watcher is in the middle of an update that will make something else than `name` current. */
  predicate WillWriteOther(s: State, w: nat, name: Option<string>)
    requires w in s.watchers
  {
    match s.watchers[w].phase
    case Compare(chosen) => chosen != name && NamedOrNone(s.profiles, chosen)
    case Check(chosen) => chosen != name && NamedOrNone(s.profiles, chosen)
    case Write(chosen) => chosen != name
    case _ => false
  }

  /** A watcher can still replace the choice: it works or waits for the lock, and has something else to write. */
  ghost predicate CanOverride(s: State, name: Option<string>) {
    && (forall w :: w in s.watchers ==> !s.watchers[w].phase.Stuck?)
    && exists w :: w in s.watchers && !Ending(s.watchers[w].phase)
        && (RulesMayDiffer(s.profiles, name) || WillWriteOther(s, w, name))
  }

  // ---------- Events after which the rules ask for something else ----------

  lemma ContainsItself(s: string)
    ensures Contains(s, s)
  {
    assert OccursAt(s, s, 0);
  }

  /** A process, and a game, that a rule asks for. */
  function EventsFor(rule: ProfileRule): seq<Event> {
    match rule
    case Process(r) => [Exec(1, Some(ProcessInfo(r.name, if r.args.Some? then r.args.value else "")))]
    case Gamemode(None) => GAME
    case Gamemode(Some(r)) =>
      [Exec(1, Some(ProcessInfo(r.name, if r.args.Some? then r.args.value else ""))), GamemodeStart(1)]
  }

  lemma RuleCanMatch(rule: ProfileRule)
    ensures Matches(HandledAll(EMPTY, EventsFor(rule)), rule)
  {
    var events, s := EventsFor(rule), HandledAll(EMPTY, EventsFor(rule));
    assert events[..0] == [];
    match rule {
      case Process(r) =>
        if r.args.Some? { ContainsItself(r.args.value); }
        assert 1 in s.processes && ProcessFits(s.processes[1], r);
      case Gamemode(None) =>
        assert s.games == {0};
      case Gamemode(Some(r)) =>
        if r.args.Some? { ContainsItself(r.args.value); }
        assert events[..1] == [events[0]] && events[..1][..0] == [];
        assert HandledAll(EMPTY, events[..1]) == Handled(EMPTY, events[0]);
        assert s == Handled(HandledAll(EMPTY, events[..1]), events[1]);
        assert 1 in s.processes && 1 in s.games && ProcessFits(s.processes[1], r);
    }
  }

  lemma {:induction false} NothingMatchesNothing(profiles: Profiles)
    ensures FirstMatch(EMPTY, profiles) == None
  {
    if profiles != [] {
      NothingMatchesNothing(profiles[1..]);
    }
  }

  lemma {:induction false} DifferingEvents(profiles: Profiles, name: Option<string>) returns (events: seq<Event>)
    requires RulesMayDiffer(profiles, name)
    ensures FirstMatch(HandledAll(EMPTY, events), profiles) != name
  {
    if name.Some? {
      events := [];
      NothingMatchesNothing(profiles);
    } else {
      var i :| 0 <= i < |profiles| && profiles[i].rule.Some?;
      events := EventsFor(profiles[i].rule.value);
      RuleCanMatch(profiles[i].rule.value);
      var s := HandledAll(EMPTY, events);
      assert Active(s, profiles[i]);
      hide FirstMatch, EventsFor, HandledAll, Active;
      if FirstMatch(s, profiles).None? { Config.NoneActive(s, profiles); }
    }
  }

  // ---------- The choice is replaced ----------

  /** A continuation without requests or edits after which something else is current. */
  ghost predicate Replaces(s: State, actions: seq<Action>, name: Option<string>) {
    Path(s, actions) && Undirected(actions) && End(s, actions).current != name
  }

  lemma {:induction false} JoinReplaces(s: State, first: seq<Action>, second: seq<Action>, name: Option<string>)
    requires Path(s, first) && Undirected(first) && Replaces(End(s, first), second, name)
    ensures Replaces(s, first + second, name)
  {
    Append(s, first, second);
  }

  lemma WaiterReplaces(s: State, w: nat, name: Option<string>) returns (actions: seq<Action>)
    requires At(s, w, Waiting) && s.lock.None? && RulesMayDiffer(s.profiles, name)
    ensures Replaces(s, actions, name)
  {
    var events := DifferingEvents(s.profiles, name);
    hide Path, End, HandledAll, FirstMatch, Indexed;
    actions := StartsUp(s, w, events);
  }

  /** A watcher that works gets to the head of its loop, restarts itself, and its successor replaces the choice. */
  lemma WorkerReplaces(s: State, h: nat, name: Option<string>) returns (actions: seq<Action>)
    requires h in s.watchers && Working(s.watchers[h].phase) && (s.watchers[h].phase.Loading? || HasTable(s))
    requires s.requests == map[] && s.tx.None? && RulesMayDiffer(s.profiles, name)
    ensures Replaces(s, actions, name)
  {
    hide Path, End, Next, Indexed, RulesMayDiffer;
    var first := ReachesHead(s, h);
    var s1 := End(s, first);
    var second := RestartsSilently(s1, h, name);
    JoinReplaces(s, first, second, name);
    actions := first + second;
  }

  lemma RestartsSilently(s: State, h: nat, name: Option<string>) returns (actions: seq<Action>)
    requires At(s, h, Head) && s.requests == map[] && s.tx.None? && RulesMayDiffer(s.profiles, name)
    ensures Replaces(s, actions, name)
  {
    hide Path, End, Next, RulesMayDiffer;
    if s.watchers[h].reload {
      actions := SuccessorReplaces(s, h, name);
    } else {
      assert Enabled(s, Quiet(h)) && Regular(s, Quiet(h));
      SilenceStep(s, h);
      OneStep(s, Quiet(h));
      actions := SuccessorReplaces(Next(s, Quiet(h)), h, name);
      JoinReplaces(s, [Quiet(h)], actions, name);
      actions := [Quiet(h)] + actions;
    }
  }

  lemma SuccessorReplaces(s: State, h: nat, name: Option<string>) returns (actions: seq<Action>)
    requires At(s, h, Head) && s.watchers[h].reload && s.requests == map[] && s.tx.None?
    requires RulesMayDiffer(s.profiles, name)
    ensures Replaces(s, actions, name)
  {
    hide Path, End, Next, RulesMayDiffer;
    var v := UnusedNumber(s.watchers.Keys);
    var reload, release := Reload(h, v), Release(h);
    assert Enabled(s, reload) && Regular(s, reload);
    ReloadStep(s, h, v);
    var s1 := Next(s, reload);
    assert Enabled(s1, release) && Regular(s1, release);
    MoveStep(s1, release, h);
    var s2 := Next(s1, release);
    hide Enabled, Regular;
    var first := Two(s, reload, release);
    var second := WaiterReplaces(s2, v, name);
    JoinReplaces(s, first, second, name);
    actions := first + second;
  }

  /** An update under way comes to its end. */
  lemma UpdateReplaces(s: State, w: nat, name: Option<string>) returns (actions: seq<Action>)
    requires w in s.watchers && WillWriteOther(s, w, name) && s.current == name
    ensures Replaces(s, actions, name)
  {
    hide Path, End, Next;
    var chosen := s.watchers[w].phase.chosen;
    var s1: State;
    match s.watchers[w].phase {
      case Compare(_) =>
        MoveStep(s, DoCompare(w), w);
        s1 := Next(s, DoCompare(w));
        MoveStep(s1, DoCheck(w), w);
        var s2 := Next(s1, DoCheck(w));
        MoveStep(s2, DoWrite(w), w);
        actions := Three(s, DoCompare(w), DoCheck(w), DoWrite(w));
      case Check(_) =>
        MoveStep(s, DoCheck(w), w);
        s1 := Next(s, DoCheck(w));
        MoveStep(s1, DoWrite(w), w);
        actions := Two(s, DoCheck(w), DoWrite(w));
      case Write(_) =>
        MoveStep(s, DoWrite(w), w);
        OneStep(s, DoWrite(w));
        actions := [DoWrite(w)];
    }
  }

  /** The state once a choice was written: no request is in progress and no sender stored. */
  ghost predicate Chosen(s: State, name: Option<string>) {
    Inv(s) && s.requests == map[] && s.tx.None? && s.current == name
  }

  lemma OverrideReplaces(s: State, name: Option<string>) returns (actions: seq<Action>)
    requires Chosen(s, name) && CanOverride(s, name)
    ensures Replaces(s, actions, name)
  {
    var w :| w in s.watchers && !Ending(s.watchers[w].phase)
      && (RulesMayDiffer(s.profiles, name) || WillWriteOther(s, w, name));
    InvAt(s, w);
    if WillWriteOther(s, w, name) {
      actions := UpdateReplaces(s, w, name);
    } else if s.lock.None? {
      actions := WaiterReplaces(s, w, name);
    } else {
      var h := s.lock.value;
      InvAt(s, h);
      if s.watchers[h].phase.Leaving? {
        actions := LeaverReplaces(s, h, w, name);
      } else {
        hide Inv, Indexed, ProfileInv, LedInv, StuckInv;
        actions := WorkerReplaces(s, h, name);
      }
    }
  }

  lemma LeaverReplaces(s: State, h: nat, w: nat, name: Option<string>) returns (actions: seq<Action>)
    requires At(s, h, Leaving) && At(s, w, Waiting) && RulesMayDiffer(s.profiles, name)
    ensures Replaces(s, actions, name)
  {
    hide Path, End, Next, RulesMayDiffer;
    MoveStep(s, Release(h), h);
    OneStep(s, Release(h));
    actions := WaiterReplaces(Next(s, Release(h)), w, name);
    JoinReplaces(s, [Release(h)], actions, name);
    actions := [Release(h)] + actions;
  }

  // ---------- The choice stays ----------

  /** Nothing but the chosen name can be written any more. */
  ghost predicate NothingElse(s: State, name: Option<string>) {
    && s.requests == map[] && s.current == name
    && ((forall w :: w in s.watchers ==> s.watchers[w].phase.Leaving? || s.watchers[w].phase.Gone?)
        || (!RulesMayDiffer(s.profiles, name) && forall w :: w in s.watchers ==> !WillWriteOther(s, w, name)))
  }

  lemma {:induction false} NoRulesNoChoice(table: Option<WatcherState>, profiles: Profiles)
    requires !RulesMayDiffer(profiles, None)
    ensures Evaluated(table, profiles) == None
  {
    if table.Some? && profiles != [] {
      assert profiles[0].rule.None?;
      assert forall i :: 0 <= i < |profiles[1..]| ==> profiles[1..][i] == profiles[i + 1];
      NoRulesNoChoice(table, profiles[1..]);
    }
  }

  lemma StepKeepsWriting(s: State, a: Action, name: Option<string>, w: nat)
    requires Enabled(s, a) && NextProfiles(s, a) == s.profiles && w in s.watchers
    requires s.current == name && !RulesMayDiffer(s.profiles, name) && !WillWriteOther(s, w, name)
    ensures w in Next(s, a).watchers && !WillWriteOther(Next(s, a), w, name)
    ensures Actor(a) == Some(w) ==> Next(s, a).current == name
  {
    hide Next, NextTable, NextRequests, NextUpdates, NextEdits, NextDeletes, Delivered, Full;
    NextAt(s, a, w);
    FrameNext(s, a);
    NoRulesNoChoice(s.table, s.profiles);
    hide Evaluated, Named;
  }

  lemma StepKeepsNothingElse(s: State, a: Action, name: Option<string>)
    requires NothingElse(s, name) && Enabled(s, a) && Regular(s, a) && Undirected([a])
    ensures NothingElse(Next(s, a), name)
  {
    assert a in [a];
    var f := Next(s, a);
    FrameNext(s, a);
    hide Next;
    if forall w :: w in s.watchers ==> s.watchers[w].phase.Leaving? || s.watchers[w].phase.Gone? {
      forall w | w in f.watchers ensures f.watchers[w].phase.Leaving? || f.watchers[w].phase.Gone? {
        NextAt(s, a, w);
      }
    } else {
      forall w | w in f.watchers ensures !WillWriteOther(f, w, name) {
        NextAt(s, a, w);
        if w in s.watchers { StepKeepsWriting(s, a, name, w); }
      }
      if Actor(a).Some? { StepKeepsWriting(s, a, name, Actor(a).value); }
    }
  }

  lemma {:induction false} NothingElseStays(s: State, actions: seq<Action>, name: Option<string>)
    requires NothingElse(s, name) && Path(s, actions) && Undirected(actions)
    ensures End(s, actions).current == name
    decreases |actions|
  {
    if actions != [] {
      assert actions[0] in actions;
      assert forall a :: a in actions[1..] ==> a in actions;
      StepKeepsNothingElse(s, actions[0], name);
      hide NothingElse, Next, Enabled, Regular;
      NothingElseStays(Next(s, actions[0]), actions[1..], name);
    }
  }

  lemma {:induction false} StuckStays(s: State, actions: seq<Action>, w: nat)
    requires Inv(s) && w in s.watchers && s.watchers[w].phase.Stuck? && s.requests == map[]
    requires Path(s, actions) && Undirected(actions)
    ensures End(s, actions).current == s.current
    decreases |actions|
  {
    if actions != [] {
      var a := actions[0];
      assert a in actions;
      assert forall b :: b in actions[1..] ==> b in actions;
      StaysStuck(s, a, w);
      StepKeepsInv(s, a);
      FrameNext(s, a);
      hide Inv, Next;
      StuckStays(Next(s, a), actions[1..], w);
    }
  }

  // ---------- The theorem ----------

  lemma ChosenStaysIff(s: State, name: Option<string>)
    requires Chosen(s, name)
    ensures StaysChosen(s, name) <==> !CanOverride(s, name)
  {
    if CanOverride(s, name) {
      hide CanOverride, Inv;
      var actions := OverrideReplaces(s, name);
      assert End(s, actions).current != name;
    } else if w :| w in s.watchers && s.watchers[w].phase.Stuck? {
      forall actions | Path(s, actions) && Undirected(actions) ensures End(s, actions).current == name {
        StuckStays(s, actions, w);
      }
    } else {
      hide Inv;
      assert NothingElse(s, name);
      forall actions | Path(s, actions) && Undirected(actions) ensures End(s, actions).current == name {
        NothingElseStays(s, actions, name);
      }
    }
  }

  lemma WriteChooses(s: State, r: nat)
    requires Inv(s) && Enabled(s, WriteChoice(r)) && forall q :: q in s.requests ==> q == r
    ensures Chosen(Next(s, WriteChoice(r)), s.requests[r].name)
  {
    assert s.tx.None? by { assert RequestInv(s); }
    StepKeepsInv(s, WriteChoice(r));
    FrameNext(s, WriteChoice(r));
    hide Next, Inv;
  }

  /**
    Once a choice made by hand is written, with no other request in progress: it stays current, without
    any further request or edit, exactly when no watcher can still replace it. One can when it works or
    waits, none is stuck, and the rules may ask for something else or it is about to write something else.
   */
  lemma ChoiceStaysIff(s: State, r: nat)
    requires Inv(s) && Enabled(s, WriteChoice(r)) && forall q :: q in s.requests ==> q == r
    ensures var f, name := Next(s, WriteChoice(r)), s.requests[r].name;
      StaysChosen(f, name) <==> !CanOverride(f, name)
  {
    WriteChooses(s, r);
    hide Next, Inv, Chosen, StaysChosen, CanOverride;
    ChosenStaysIff(Next(s, WriteChoice(r)), s.requests[r].name);
  }
}
