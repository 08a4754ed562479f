/**
  The parts of the daemon that profile switching changes, as an object. Its methods are the stretches
  of the watcher, of the requests and of the edits during which nothing else runs; `Serve` runs them in
  any order a run allows.
 */
module WatcherHandler {
  import opened Wrappers
  import opened ProcessIndex
  import opened ProfileRules
  import opened ProfileWatcher
  import opened WatcherSteps

  class Daemon {
    var profiles: Profiles
    var currentProfile: Option<string>
    var profileWatcherState: Option<WatcherState>
    var profileWatcherTx: Option<nat>
    var watcherLock: Option<nat>
    var watchers: map<nat, Watcher>
    var requests: map<nat, Request>
    var updates: multiset<nat>
    var edits: nat
    var deletes: nat

    ghost function Contents(): State
      reads this
    {
      State(profiles, currentProfile, profileWatcherState, watcherLock, profileWatcherTx, watchers, requests, updates,
            edits, deletes)
    }

    ghost predicate Valid()
      reads this
    {
      Inv(Contents())
    }

    /** The action can be taken, and keeps the invariant. */
    ghost predicate Allowed(a: Action)
      reads this
    {
      Valid() && Enabled(Contents(), a) && Regular(Contents(), a)
    }

    constructor (profiles: Profiles, currentProfile: Option<string>)
      ensures Valid() && Initial(Contents())
      ensures this.profiles == profiles && this.currentProfile == currentProfile
    {
      this.profiles, this.currentProfile := profiles, currentProfile;
      profileWatcherState, profileWatcherTx, watcherLock := None, None, None;
      watchers, requests, updates, edits, deletes := map[], map[], multiset{}, 0, 0;
    }

    // The watcher.

    method AcquireLock(w: nat)
      requires Allowed(Acquire(w))
      modifies this`watchers, this`watcherLock
      ensures Valid() && Contents() == Next(old(Contents()), Acquire(w))
    {
      hide Inv, Next;
      StepKeepsInv(Contents(), Acquire(w));
      MoveStep(Contents(), Acquire(w), w);
      watchers, watcherLock := watchers[w := watchers[w].(phase := Loading)], Some(w);
    }

    /** Fills a new table with the processes and games there are, given as events, and publishes it. */
    method LoadProcesses(w: nat, events: seq<Event>)
      requires Allowed(Load(w, events))
      modifies this`watchers, this`profileWatcherState
      ensures Valid() && Contents() == Next(old(Contents()), Load(w, events))
    {
      hide Inv, Next;
      StepKeepsInv(Contents(), Load(w, events));
      LoadStep(Contents(), w, events);
      var state := EMPTY;
      for i := 0 to |events|
        invariant state == HandledAll(EMPTY, events[..i])
      {
        assert events[..i + 1][..i] == events[..i];
        state := Handled(state, events[i]);
      }
      assert events[..|events|] == events;
      profileWatcherState := Some(state);
      watchers := watchers[w := watchers[w].(phase := Evaluate)];
    }

    /** An update that is not interrupted activates the right profile. */
    method UpdateProfile(w: nat)
      requires Valid() && At(Contents(), w, Evaluate)
      modifies this`watchers, this`currentProfile
      ensures Valid() && At(Contents(), w, Head) && watchers == old(watchers)[w := old(watchers[w]).(phase := Head)]
      ensures profileWatcherState.Some? && currentProfile == FirstMatch(profileWatcherState.value, profiles)
    {
      hide Inv, Indexed, Next;
      ghost var choice := EvaluateRules(w);
      while !watchers[w].phase.Head?
        invariant Valid() && w in watchers &&
            watchers == old(watchers)[w := old(watchers[w]).(phase := watchers[w].phase)]
        invariant match watchers[w].phase
          case Compare(chosen) => chosen == choice
          case Check(chosen) => chosen == choice
          case Write(chosen) => chosen == choice
          case Head => currentProfile == choice
          case _ => false
        decreases match watchers[w].phase case Compare(_) => 3 case Check(_) => 2 case Write(_) => 1 case _ => 0
      {
        ghost var s := Contents();
        MoveStep(s, UpdateStep(watchers[w].phase, w), w);
        ContinueUpdate(w);
        if s.watchers[w].phase.Check? { FirstMatchNamed(profileWatcherState.value, profiles); }
      }
    }

    /** First part of an update: the rules are evaluated on the table. */
    method EvaluateRules(w: nat) returns (active: Option<string>)
      requires Valid() && At(Contents(), w, Evaluate)
      modifies this`watchers
      ensures Valid() && Contents() == Next(old(Contents()), DoEvaluate(w))
      ensures profileWatcherState.Some? && active == FirstMatch(profileWatcherState.value, profiles)
      ensures watchers == old(watchers)[w := old(watchers[w]).(phase := Compare(active))]
    {
      hide Inv, Next;
      StepKeepsInv(Contents(), DoEvaluate(w));
      InvAt(Contents(), w);
      MoveStep(Contents(), DoEvaluate(w), w);
      EvaluatedIs(profileWatcherState.value, profiles);
      active := EvaluateCurrentProfile(profileWatcherState.value, profiles);
      watchers := watchers[w := watchers[w].(phase := Compare(active))];
    }

    /** The rest of an update, cut where it may be suspended: compare, check that it exists, set. */
    method ContinueUpdate(w: nat)
      requires Valid() && w in watchers && Updating(watchers[w].phase)
      modifies this`watchers, this`currentProfile
      ensures Valid() && Contents() == Next(old(Contents()), UpdateStep(old(watchers[w]).phase, w))
    {
      ghost var a := UpdateStep(watchers[w].phase, w);
      StepKeepsInv(Contents(), a);
      MoveStep(Contents(), a, w);
      var chosen := watchers[w].phase.chosen;
      match watchers[w].phase {
        case Compare(_) =>
          watchers := watchers[w := watchers[w].(phase := if currentProfile == chosen then Head else Check(chosen))];
        case Check(_) =>
          var found := chosen.None?;
          if !found { found := HasProfile(profiles, chosen.value); }
          watchers := watchers[w := watchers[w].(phase := if found then Write(chosen) else Head)];
        case Write(_) =>
          currentProfile := chosen;
          watchers := watchers[w := watchers[w].(phase := Head)];
      }
    }

    /** Stop ends the watcher and takes the table away; Update starts an update. */
    method ReceiveCommand(w: nat)
      requires Allowed(Receive(w))
      modifies this`watchers, this`profileWatcherState
      ensures Valid() && Contents() == Next(old(Contents()), Receive(w))
    {
      hide Inv, Next;
      StepKeepsInv(Contents(), Receive(w));
      InvAt(Contents(), w);
      ReceiveStep(Contents(), w);
      var me := watchers[w];
      var rest := me.queue[1..];
      match me.queue[0] {
        case Stop =>
          watchers := watchers[w := me.(queue := rest, phase := Leaving)];
          profileWatcherState := None;
        case Update =>
          watchers := watchers[w := me.(queue := rest, phase := Evaluate)];
      }
    }

    /** A process event changes the table; the start of the gamemode daemon also asks for a restart. */
    method HandleProfileEvent(w: nat, event: Event)
      requires Allowed(Observe(w, event))
      modifies this`watchers, this`profileWatcherState
      ensures Valid() && Contents() == Next(old(Contents()), Observe(w, event))
      ensures old(profileWatcherState).Some? && profileWatcherState.Some? && Indexed(profileWatcherState.value)
      ensures Records(event, old(profileWatcherState).value, profileWatcherState.value)
      ensures w in watchers
      ensures watchers[w].reload ==
        (old(watchers[w]).reload || (event.Exec? && event.info.Some? && event.info.value.name == "gamemoded"))
    {
      hide Inv, Next;
      StepKeepsInv(Contents(), Observe(w, event));
      InvAt(Contents(), w);
      ObserveStep(Contents(), w, event);
      var state := profileWatcherState.value;
      HandledKeepsIndexed(state, event);
      match event {
        case Exec(pid, info) =>
          if info.Some? { state := Pushed(state, pid, info.value); }
        case Exit(pid) => state := Removed(state, pid);
        case GamemodeStart(pid) => state := state.(games := state.games + {pid});
        case GamemodeEnd(pid) => state := state.(games := state.games - {pid});
      }
      profileWatcherState := Some(state);
      var isDaemon := event.Exec? && event.info.Some? && event.info.value.name == GAMEMODE_DAEMON;
      watchers := watchers[w := watchers[w].(phase := Debounce, reload := watchers[w].reload || isDaemon)];
    }

    /** No more events for a while: the rules are evaluated. */
    method DebounceOver(w: nat)
      requires Allowed(DebounceEnds(w))
      modifies this`watchers
      ensures Valid() && Contents() == Next(old(Contents()), DebounceEnds(w))
    {
      hide Inv, Next;
      StepKeepsInv(Contents(), DebounceEnds(w));
      MoveStep(Contents(), DebounceEnds(w), w);
      watchers := watchers[w := watchers[w].(phase := Evaluate)];
    }

    /** No events for too long: the watcher is to restart. */
    method NoticeSilence(w: nat)
      requires Allowed(Quiet(w))
      modifies this`watchers
      ensures Valid() && Contents() == Next(old(Contents()), Quiet(w))
    {
      hide Inv, Next;
      StepKeepsInv(Contents(), Quiet(w));
      SilenceStep(Contents(), w);
      watchers := watchers[w := watchers[w].(reload := true)];
    }

    /** The watcher restarts itself: it stops the stored watcher, starts a new one and leaves. */
    method Restart(w: nat, spawned: nat)
      requires Allowed(Reload(w, spawned))
      modifies this
      ensures Valid() && Contents() == Next(old(Contents()), Reload(w, spawned))
    {
      hide Inv, Next;
      StepKeepsInv(Contents(), Reload(w, spawned));
      ReloadStep(Contents(), w, spawned);
      var tx := profileWatcherTx;
      profileWatcherTx := None;
      if tx.Some? && tx.value in watchers && !watchers[tx.value].phase.Gone? && |watchers[tx.value].queue| >= CAPACITY {
        watchers := watchers[w := watchers[w].(phase := Stuck(tx.value))];
      } else {
        if tx.Some? { Deliver(tx.value, Stop); }
        watchers := watchers[w := watchers[w].(phase := Leaving)];
        watchers := watchers[spawned := NEW_WATCHER];
        profileWatcherTx := Some(spawned);
        profileWatcherState := None;
      }
    }

    method GiveUpLock(w: nat)
      requires Allowed(Release(w))
      modifies this`watchers, this`watcherLock
      ensures Valid() && Contents() == Next(old(Contents()), Release(w))
    {
      hide Inv, Next;
      StepKeepsInv(Contents(), Release(w));
      MoveStep(Contents(), Release(w), w);
      watchers, watcherLock := watchers[w := watchers[w].(phase := Gone)], None;
    }

    /** Puts a command into the queue of a watcher that still listens. */
    method Deliver(to: nat, command: Command)
      modifies this`watchers
      ensures watchers == Delivery(old(watchers), to, command)
    {
      if to in watchers && !watchers[to].phase.Gone? {
        watchers := watchers[to := watchers[to].(queue := watchers[to].queue + [command])];
      }
    }

    // Requests.

    /** A request takes the stored sender first. */
    method BeginRequest(r: nat, goal: Goal)
      requires Allowed(Begin(r, goal))
      modifies this`requests, this`profileWatcherTx
      ensures Valid() && Contents() == Next(old(Contents()), Begin(r, goal))
    {
      hide Inv, Next;
      StepKeepsInv(Contents(), Begin(r, goal));
      QuietStep(Contents(), Begin(r, goal));
      requests := requests[r := Stopping(profileWatcherTx, goal)];
      profileWatcherTx := None;
    }

    /** The send of Stop completes, at once if nobody was to be stopped or listens any more. */
    method StopProfileWatcher(r: nat)
      requires Allowed(SendStop(r))
      modifies this`requests, this`watchers
      ensures Valid() && Contents() == Next(old(Contents()), SendStop(r))
    {
      hide Inv, Next;
      StepKeepsInv(Contents(), SendStop(r));
      SendStopStep(Contents(), r);
      if requests[r].target.Some? { Deliver(requests[r].target.value, Stop); }
      requests := requests[r := Ready(requests[r].goal)];
    }

    method StartProfileWatcher(r: nat, spawned: nat)
      requires Allowed(Start(r, spawned))
      modifies this`requests, this`watchers, this`profileWatcherTx
      ensures Valid() && Contents() == Next(old(Contents()), Start(r, spawned))
      ensures requests == map[]
    {
      assert RequestInv(Contents());
      assert forall q :: q in requests ==> q == r;
      hide Inv, Next;
      StepKeepsInv(Contents(), Start(r, spawned));
      StartStep(Contents(), r, spawned);
      watchers, profileWatcherTx := watchers[spawned := NEW_WATCHER], Some(spawned);
      requests := requests - {r};
    }

    /** A manual choice is checked to exist, and ends with an error if it does not. */
    method ChooseProfile(r: nat) returns (found: bool)
      requires Allowed(Choose(r))
      modifies this`requests
      ensures Valid() && Contents() == Next(old(Contents()), Choose(r))
      ensures found <==> r in requests
    {
      hide Inv, Next;
      StepKeepsInv(Contents(), Choose(r));
      QuietStep(Contents(), Choose(r));
      var name := requests[r].goal.name;
      found := name.None?;
      if !found { found := HasProfile(profiles, name.value); }
      requests := if found then requests[r := Writing(name)] else requests - {r};
    }

    method SetCurrentProfile(r: nat)
      requires Allowed(WriteChoice(r))
      modifies this`requests, this`currentProfile
      ensures Valid() && Contents() == Next(old(Contents()), WriteChoice(r))
    {
      hide Inv, Next;
      StepKeepsInv(Contents(), WriteChoice(r));
      QuietStep(Contents(), WriteChoice(r));
      currentProfile := requests[r].name;
      requests := requests - {r};
    }

    // Edits of the profiles.

    /** An edit that is saved. */
    method EditProfiles(after: Profiles)
      requires Valid()
      modifies this`profiles, this`edits
      ensures Valid() && Contents() == Next(old(Contents()), Change(after))
    {
      hide Inv, Next;
      StepKeepsInv(Contents(), Change(after));
      QuietStep(Contents(), Change(after));
      profiles, edits := after, edits + 1;
    }

    /** A deletion that unset the current profile removes it. */
    method RemoveProfile(after: Profiles)
      requires Valid() && deletes > 0
      modifies this`profiles, this`edits, this`deletes
      ensures Valid() && Contents() == Next(old(Contents()), Remove(after))
    {
      hide Inv, Next;
      StepKeepsInv(Contents(), Remove(after));
      QuietStep(Contents(), Remove(after));
      profiles, edits, deletes := after, edits + 1, deletes - 1;
    }

    /** A deletion unsets the current profile first. */
    method UnsetCurrentProfile()
      requires Valid()
      modifies this`currentProfile, this`deletes
      ensures Valid() && Contents() == Next(old(Contents()), Unset)
    {
      hide Inv, Next;
      StepKeepsInv(Contents(), Unset);
      QuietStep(Contents(), Unset);
      currentProfile, deletes := None, deletes + 1;
    }

    /** After an edit: a sender that is stored is used to announce it. */
    method AnnounceEdit()
      requires Allowed(Notify)
      modifies this`edits, this`updates
      ensures Valid() && Contents() == Next(old(Contents()), Notify)
    {
      hide Inv, Next;
      StepKeepsInv(Contents(), Notify);
      QuietStep(Contents(), Notify);
      edits := edits - 1;
      if profileWatcherTx.Some? { updates := updates + multiset{profileWatcherTx.value}; }
    }

    method CompleteUpdateSend(to: nat)
      requires Allowed(SendUpdate(to))
      modifies this`updates, this`watchers
      ensures Valid() && Contents() == Next(old(Contents()), SendUpdate(to))
    {
      hide Inv, Next;
      StepKeepsInv(Contents(), SendUpdate(to));
      SendUpdateStep(Contents(), to);
      updates := updates - multiset{to};
      Deliver(to, Update);
    }

    // Everything together.

    method Perform(a: Action)
      requires Allowed(a)
      modifies this
      ensures Valid() && Contents() == Next(old(Contents()), a)
    {
      NeverUnstuck(Contents(), a);
      hide Inv, Next;
      match a {
        case Acquire(w) => AcquireLock(w);
        case Load(w, events) => LoadProcesses(w, events);
        case DoEvaluate(w) => var _ := EvaluateRules(w);
        case DoCompare(w) => ContinueUpdate(w);
        case DoCheck(w) => ContinueUpdate(w);
        case DoWrite(w) => ContinueUpdate(w);
        case Receive(w) => ReceiveCommand(w);
        case Observe(w, event) => HandleProfileEvent(w, event);
        case DebounceEnds(w) => DebounceOver(w);
        case Quiet(w) => NoticeSilence(w);
        case Reload(w, spawned) => Restart(w, spawned);
        case Release(w) => GiveUpLock(w);
        case Begin(r, goal) => BeginRequest(r, goal);
        case SendStop(r) => StopProfileWatcher(r);
        case Start(r, spawned) => StartProfileWatcher(r, spawned);
        case Choose(r) => var _ := ChooseProfile(r);
        case WriteChoice(r) => SetCurrentProfile(r);
        case Change(after) => EditProfiles(after);
        case Remove(after) => RemoveProfile(after);
        case Unset => UnsetCurrentProfile();
        case Notify => AnnounceEdit();
        case SendUpdate(to) => CompleteUpdateSend(to);
      }
    }

    /** Runs the methods in the order of a run; a watcher at the head of its loop is up to date afterwards. */
    method Serve(actions: seq<Action>)
      requires Valid() && Path(Contents(), actions)
      modifies this
      ensures Valid() && Contents() == End(old(Contents()), actions)
      ensures forall w :: w in watchers && watchers[w].phase.Head? ==>
        profileWatcherState.Some?
        && (Notified(Contents(), w) || currentProfile == FirstMatch(profileWatcherState.value, profiles))
    {
      ghost var start := Contents();
      var rest := actions;
      assert rest == actions[0..];
      for i := 0 to |actions|
        invariant Valid() && rest == actions[i..] && Path(Contents(), rest)
        invariant End(Contents(), rest) == End(start, actions)
      {
        var a := rest[0];
        Perform(a);
        rest := rest[1..];
      }
      forall w | w in watchers && watchers[w].phase.Head?
        ensures profileWatcherState.Some?
        ensures Notified(Contents(), w) || currentProfile == FirstMatch(profileWatcherState.value, profiles)
      {
        InvAt(Contents(), w);
      }
    }
  }

  predicate Updating(phase: Phase) {
    phase.Compare? || phase.Check? || phase.Write?
  }

  /** The next part of an update in progress. */
  function UpdateStep(phase: Phase, w: nat): Action
    requires Updating(phase)
  {
    if phase.Compare? then DoCompare(w) else if phase.Check? then DoCheck(w) else DoWrite(w)
  }

  method HasProfile(profiles: Profiles, name: string) returns (found: bool)
    ensures found <==> NamedOrNone(profiles, Some(name))
  {
    for i := 0 to |profiles|
      invariant forall k :: 0 <= k < i ==> profiles[k].name != name
    {
      if profiles[i].name == name { return true; }
    }
    found := false;
  }
}
