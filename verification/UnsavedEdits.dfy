/**
  Edits of the profiles that could not be saved. They stay in memory, but the daemon returns an error
  before it tells the watcher. When that does harm is stated for every state that the invariant allows,
  and over everything that can happen afterwards.
 */
module UnsavedEdits {
  import opened Wrappers
  import opened ProcessIndex
  import opened ProfileRules
  import opened ProfileWatcher
  import opened WatcherSteps
  import opened WatcherLimits
  import Config

  // ---------- The promise depends on nothing but the watcher's present choice ----------

  /** What the invariant says of everything but the profile. */
  ghost predicate Sane(s: State) {
    && RequestInv(s) && RefInv(s)
    && forall w :: w in s.watchers ==> LockAgrees(s, w) && StuckInv(s, w) && TableInv(s, w) && LedInv(s, w)
  }

  lemma NotifiedSame(s: State, f: State, w: nat)
    requires w in s.watchers && w in f.watchers && f.watchers[w].queue == s.watchers[w].queue
    requires f.tx == s.tx && f.requests == s.requests && f.updates == s.updates
    requires f.edits == s.edits && f.deletes == s.deletes
    ensures Notified(f, w) <==> Notified(s, w)
  {}

  /** The next step of an update that goes wrong without anybody telling the watcher. */
  lemma OneStepOverlooks(s: State, a: Action, w: nat) returns (actions: seq<Action>)
    requires Enabled(s, a) && Actor(a) == Some(w) && (a.DoCompare? || a.DoCheck? || a.DoWrite?)
    requires NextPhase(s, a) == Head && !Notified(s, w) && !RightProfile(s, NextCurrent(s, a))
    ensures Path(s, actions) && Overlooks(End(s, actions), w)
  {
    hide Path, End, Next;
    MoveStep(s, a, w);
    NotifiedSame(s, Next(s, a), w);
    assert Regular(s, a);
    hide NextPhase, NextCurrent, Enabled, Regular, Notified;
    OneStep(s, a);
    actions := [a];
  }

  lemma WriteOverlooks(s: State, w: nat, chosen: Option<string>) returns (actions: seq<Action>)
    requires At(s, w, Write(chosen)) && !Notified(s, w) && !RightProfile(s, chosen)
    ensures Path(s, actions) && Overlooks(End(s, actions), w)
  {
    actions := OneStepOverlooks(s, DoWrite(w), w);
  }

  lemma CheckOverlooks(s: State, w: nat, chosen: Option<string>) returns (actions: seq<Action>)
    requires At(s, w, Check(chosen)) && !Notified(s, w) && !EndsWell(s, chosen)
    ensures Path(s, actions) && Overlooks(End(s, actions), w)
  {
    hide Path, End, Next;
    if NamedOrNone(s.profiles, chosen) {
      assert Enabled(s, DoCheck(w)) && Regular(s, DoCheck(w));
      MoveStep(s, DoCheck(w), w);
      var s1 := Next(s, DoCheck(w));
      NotifiedSame(s, s1, w);
      hide Enabled, Regular, Notified, NamedOrNone;
      actions := WriteOverlooks(s1, w, chosen);
      Prepend(s, DoCheck(w), actions);
      actions := [DoCheck(w)] + actions;
    } else {
      actions := OneStepOverlooks(s, DoCheck(w), w);
    }
  }

  lemma CompareOverlooks(s: State, w: nat, chosen: Option<string>) returns (actions: seq<Action>)
    requires At(s, w, Compare(chosen)) && !Notified(s, w) && !EndsWell(s, chosen)
    ensures Path(s, actions) && Overlooks(End(s, actions), w)
  {
    hide Path, End, Next;
    if s.current == chosen {
      actions := OneStepOverlooks(s, DoCompare(w), w);
    } else {
      assert Enabled(s, DoCompare(w)) && Regular(s, DoCompare(w));
      MoveStep(s, DoCompare(w), w);
      var s1 := Next(s, DoCompare(w));
      NotifiedSame(s, s1, w);
      hide Enabled, Regular, Notified, NamedOrNone;
      actions := CheckOverlooks(s1, w, chosen);
      Prepend(s, DoCompare(w), actions);
      actions := [DoCompare(w)] + actions;
    }
  }

  lemma WrongOverlooks(s: State, w: nat) returns (actions: seq<Action>)
    requires w in s.watchers && !ProfileInv(s, w)
    ensures Path(s, actions) && Overlooks(End(s, actions), w)
  {
    match s.watchers[w].phase
    case Compare(chosen) => actions := CompareOverlooks(s, w, chosen);
    case Check(chosen) => actions := CheckOverlooks(s, w, chosen);
    case Write(chosen) => actions := WriteOverlooks(s, w, chosen);
    case Head => actions := [];
  }

  /**
    The promise holds in every continuation exactly when each watcher that has made its choice, and
    has nothing on its way to it, ends its update well.
   */
  lemma PromiseIff(s: State)
    requires Sane(s)
    ensures KeepsPromise(s) <==> forall w :: w in s.watchers ==> ProfileInv(s, w)
  {
    if forall w :: w in s.watchers ==> ProfileInv(s, w) {
      assert Inv(s);
      InvKeepsPromise(s);
    } else {
      var w :| w in s.watchers && !ProfileInv(s, w);
      var actions := WrongOverlooks(s, w);
      BrokenPromise(s, actions, w);
    }
  }

  // ---------- Any edit ----------

  /** A watcher that has made its choice with nothing on its way to it. */
  ghost predicate Unaware(s: State, w: nat) {
    && w in s.watchers && !Notified(s, w)
    && var phase := s.watchers[w].phase; phase.Compare? || phase.Check? || phase.Write? || phase.Head?
  }

  /** What the watcher made current or is about to. */
  function Pick(s: State, w: nat): Option<string>
    requires w in s.watchers
  {
    match s.watchers[w].phase
    case Compare(chosen) => chosen
    case Check(chosen) => chosen
    case Write(chosen) => chosen
    case _ => s.current
  }

  /** Before it writes, a watcher drops a choice that is no profile's name any more. */
  predicate Drops(s: State, w: nat, after: Profiles)
    requires w in s.watchers
  {
    (s.watchers[w].phase.Compare? || s.watchers[w].phase.Check?) && !NamedOrNone(after, Pick(s, w))
  }

  /** What the rules of `after` ask for is what the watcher picked, or what stays current when it drops that. */
  predicate Suits(s: State, w: nat, after: Profiles)
    requires w in s.watchers
  {
    s.table.Some? &&
    (FirstMatch(s.table.value, after) == Pick(s, w)
      || (Drops(s, w, after) && FirstMatch(s.table.value, after) == s.current))
  }

  lemma UnannouncedIff(s: State, after: Profiles)
    requires Sane(s)
    ensures KeepsPromise(s.(profiles := after)) <==> forall w :: Unaware(s, w) ==> Suits(s, w, after)
  {
    var f := s.(profiles := after);
    forall w | w in s.watchers
      ensures LockAgrees(f, w) && StuckInv(f, w) && TableInv(f, w) && LedInv(f, w)
      ensures ProfileInv(f, w) <==> (Unaware(s, w) ==> Suits(s, w, after))
    {
      NotifiedSame(s, f, w);
      OnlyProfiles(s, after, w);
      hide Notified, Led, FirstMatch, Indexed, NamedOrNone;
    }
    hide LockAgrees, StuckInv, TableInv, LedInv, ProfileInv, Unaware, Suits;
    PromiseIff(f);
  }

  lemma OnlyProfiles(s: State, after: Profiles, w: nat)
    requires w in s.watchers && LedInv(s, w)
    ensures LedInv(s.(profiles := after), w)
  {
    var f := s.(profiles := after);
    assert ToBeStopped(s, w) ==> ToBeStopped(f, w) by {
      assert f.requests == s.requests;
    }
    hide ToBeStopped;
  }

  /**
    A change of the profiles that is not announced: every watcher stays up to date at the head of its
    loop, in every continuation, exactly when it suits each watcher that has picked a profile unaware.
   */
  lemma UnsavedChangeIff(s: State, after: Profiles)
    requires Inv(s)
    ensures KeepsPromise(Next(s, ChangeUnsaved(after))) <==> forall w :: Unaware(s, w) ==> Suits(s, w, after)
  {
    hide Next;
    QuietStep(s, ChangeUnsaved(after));
    UnannouncedIff(s, after);
  }

  /** The same for the removal of a profile that was current and has been unset before. */
  lemma UnsavedRemoveIff(s: State, after: Profiles)
    requires Inv(s) && s.deletes > 0
    ensures KeepsPromise(Next(s, RemoveUnsaved(after))) <==>
      forall w :: Unaware(s.(deletes := s.deletes - 1), w) ==> Suits(s, w, after)
  {
    hide KeepsPromise, Sane, Inv, Next, Suits, Notified;
    var before := s.(deletes := s.deletes - 1);
    RemoveStep(s, after);
    OneDeleteLess(s);
    UnannouncedIff(before, after);
    forall w | Unaware(before, w) ensures Suits(before, w, after) <==> Suits(s, w, after) {
      SuitsSame(s, w, after);
    }
  }

  lemma SuitsSame(s: State, w: nat, after: Profiles)
    requires w in s.watchers && s.deletes > 0
    ensures Suits(s.(deletes := s.deletes - 1), w, after) <==> Suits(s, w, after)
  {
    hide FirstMatch, NamedOrNone;
  }

  lemma RemoveStep(s: State, after: Profiles)
    requires s.deletes > 0
    ensures Next(s, RemoveUnsaved(after)) == s.(deletes := s.deletes - 1, profiles := after)
  {
    hide Next;
    QuietStep(s, RemoveUnsaved(after));
  }

  lemma OneDeleteLess(s: State)
    requires Inv(s) && s.deletes > 0
    ensures Sane(s.(deletes := s.deletes - 1))
  {
    var f := s.(deletes := s.deletes - 1);
    forall w | w in s.watchers ensures LockAgrees(f, w) && StuckInv(f, w) && TableInv(f, w) && LedInv(f, w) {
      InvAt(s, w);
      assert ToBeStopped(s, w) ==> ToBeStopped(f, w) by {
        assert f.requests == s.requests;
      }
      hide ToBeStopped, Indexed;
    }
    hide LockAgrees, StuckInv, TableInv, LedInv, ProfileInv;
  }

  // ---------- The four edits ----------

  /** By the invariant, a watcher that is unaware has picked the right profile or is going to drop its pick. */
  lemma PickIs(s: State, w: nat)
    requires Inv(s) && Unaware(s, w)
    ensures HasTable(s)
    ensures Pick(s, w) == Choice(s) || (Drops(s, w, s.profiles) && s.current == Choice(s))
  {
    InvAt(s, w);
    hide Inv, Indexed, FirstMatch, NamedOrNone, Notified;
  }

  lemma {:induction false} SameNamesSuit(s: State, w: nat, after: Profiles)
    requires Inv(s) && Unaware(s, w)
    requires forall name :: Named(after, name) <==> Named(s.profiles, name)
    ensures HasTable(s) && (Suits(s, w, after) <==> FirstMatch(s.table.value, after) == Choice(s))
  {
    PickIs(s, w);
    FirstMatchNamed(s.table.value, after);
    FirstMatchNamed(s.table.value, s.profiles);
    hide Inv, Indexed, FirstMatch, Named, Notified;
  }

  /** A new profile is never chosen, but makes the choice of a watcher exist again that was going to drop it. */
  lemma {:induction false} UnsavedCreateIff(s: State, gpus: Config.Gpus<int>, name: string, base: Config.ProfileBase)
    requires Inv(s) && Config.IndexOf(s.profiles, name) == |s.profiles|
    requires Config.NewProfile(Config.Config(gpus, s.profiles, s.current), name, base).Ok?
    ensures var after := Config.Created(Config.Config(gpus, s.profiles, s.current), name, base).profiles;
      KeepsPromise(Next(s, ChangeUnsaved(after))) <==>
        forall w :: Unaware(s, w) ==> s.watchers[w].phase !in {Compare(Some(name)), Check(Some(name))}
  {
    var config := Config.Config(gpus, s.profiles, s.current);
    var after := Config.Created(config, name, base).profiles;
    hide Next, KeepsPromise;
    UnsavedChangeIff(s, after);
    forall w | Unaware(s, w)
      ensures Suits(s, w, after) <==> s.watchers[w].phase !in {Compare(Some(name)), Check(Some(name))}
    {
      CreationSuits(s, w, gpus, name, base);
    }
    hide Suits, Inv, Config.Created, Config.NewProfile;
  }

  lemma {:induction false} CreationSuits(s: State, w: nat, gpus: Config.Gpus<int>, name: string,
      base: Config.ProfileBase)
    requires Inv(s) && Unaware(s, w) && Config.IndexOf(s.profiles, name) == |s.profiles|
    requires Config.NewProfile(Config.Config(gpus, s.profiles, s.current), name, base).Ok?
    ensures Suits(s, w, Config.Created(Config.Config(gpus, s.profiles, s.current), name, base).profiles) <==>
      s.watchers[w].phase !in {Compare(Some(name)), Check(Some(name))}
  {
    var config := Config.Config(gpus, s.profiles, s.current);
    var after := Config.Created(config, name, base).profiles;
    PickIs(s, w);
    Config.CreateNeverSwitches(s.table.value, config, name, base);
    FirstMatchNamed(s.table.value, s.profiles);
    NamesAfterCreate(s.profiles, after[|s.profiles|]);
    assert after == s.profiles + [after[|s.profiles|]];
    hide Inv, Indexed, FirstMatch, Named, Notified;
  }

  lemma {:induction false} NamesAfterCreate(profiles: Profiles, created: Profile<Config.Gpus<int>>)
    ensures forall name :: Named(profiles + [created], name) <==> Named(profiles, name) || name == created.name
    ensures Config.IndexOf(profiles, created.name) == |profiles| ==> !Named(profiles, created.name)
  {
    var after := profiles + [created];
    forall name ensures Named(after, name) <==> Named(profiles, name) || name == created.name {
      if i :| 0 <= i < |profiles| && profiles[i].name == name { assert after[i].name == name; }
      assert after[|profiles|].name == created.name;
    }
  }

  /** A move that is not saved does harm exactly when it matters and a watcher is unaware of it. */
  lemma UnsavedMoveIff(s: State, i: nat, j: nat)
    requires Inv(s) && Config.UniqueNames(s.profiles) && i < |s.profiles| && j < |s.profiles|
    ensures KeepsPromise(Next(s, ChangeUnsaved(Config.Swapped(s.profiles, i, j)))) <==>
      forall w :: Unaware(s, w) ==>
        s.table.Some? &&
        !Config.SwapMatters(s.table.value, s.profiles, if i < j then i else j, if i < j then j else i)
  {
    var after := Config.Swapped(s.profiles, i, j);
    hide Next, KeepsPromise;
    UnsavedChangeIff(s, after);
    forall name ensures Named(after, name) <==> Named(s.profiles, name) {
      if k :| 0 <= k < |after| && after[k].name == name {
        assert s.profiles[if k == i then j else if k == j then i else k].name == name;
      }
      if k :| 0 <= k < |s.profiles| && s.profiles[k].name == name {
        assert after[if k == i then j else if k == j then i else k].name == name;
      }
    }
    forall w | Unaware(s, w)
      ensures s.table.Some?
      ensures Suits(s, w, after) <==>
        !Config.SwapMatters(s.table.value, s.profiles, if i < j then i else j, if i < j then j else i)
    {
      SameNamesSuit(s, w, after);
      Config.MoveSwitchesIff(s.table.value, s.profiles, i, j);
      hide Inv, Suits, Config.SwapMatters, Config.Swapped, Indexed, FirstMatch;
    }
  }

  /**
    A rule that is not saved does harm exactly when a watcher is unaware of it, no earlier profile
    matches, and this one's match changes.
   */
  lemma UnsavedRuleIff(s: State, i: nat, rule: Option<ProfileRule>)
    requires Inv(s) && Config.UniqueNames(s.profiles) && i < |s.profiles|
    ensures KeepsPromise(Next(s, ChangeUnsaved(Config.RuleSet(s.profiles, s.profiles[i].name, rule)))) <==>
      forall w :: Unaware(s, w) ==>
        s.table.Some? &&
        (Config.ActiveBetween(s.table.value, s.profiles, -1, i)
          || Active(s.table.value, s.profiles[i]) == (rule.Some? && Matches(s.table.value, rule.value)))
  {
    var after := Config.RuleSet(s.profiles, s.profiles[i].name, rule);
    hide Next, KeepsPromise;
    UnsavedChangeIff(s, after);
    forall name ensures Named(after, name) <==> Named(s.profiles, name) {
      if k :| 0 <= k < |after| && after[k].name == name { assert s.profiles[k].name == name; }
      if k :| 0 <= k < |s.profiles| && s.profiles[k].name == name { assert after[k].name == name; }
    }
    forall w | Unaware(s, w)
      ensures s.table.Some?
      ensures Suits(s, w, after) <==>
        Config.ActiveBetween(s.table.value, s.profiles, -1, i)
        || Active(s.table.value, s.profiles[i]) == (rule.Some? && Matches(s.table.value, rule.value))
    {
      SameNamesSuit(s, w, after);
      Config.RuleSwitchesIff(s.table.value, s.profiles, i, rule);
      hide Inv, Suits, Config.ActiveBetween, Config.RuleSet, Indexed, FirstMatch, Matches;
    }
  }

  /** What a deletion does that cannot be saved: a current profile is unset before it is removed. */
  ghost function DeletedUnsaved(s: State, name: string): State {
    var after := Config.Deleted(s.profiles, name);
    if s.current == Some(name) then Next(Next(s, Unset), RemoveUnsaved(after)) else Next(s, ChangeUnsaved(after))
  }

  /** What a deletion leaves as the current profile. */
  function Left(s: State, name: string): Option<string> {
    if s.current == Some(name) then None else s.current
  }

  lemma DeletedUnsavedIs(s: State, name: string)
    ensures DeletedUnsaved(s, name) == s.(current := Left(s, name), profiles := Config.Deleted(s.profiles, name))
  {
    var after := Config.Deleted(s.profiles, name);
    hide Next, Config.Deleted;
    if s.current == Some(name) {
      QuietStep(s, Unset);
      QuietStep(Next(s, Unset), RemoveUnsaved(after));
    } else {
      QuietStep(s, ChangeUnsaved(after));
    }
  }

  /**
    A deletion that is not saved does harm exactly when a watcher is unaware of it, the profile was the
    right one, and the watcher writes it all the same or what is left as current is not right now.
   */
  lemma UnsavedDeleteIff(s: State, name: string)
    requires Inv(s) && Config.UniqueNames(s.profiles)
    ensures KeepsPromise(DeletedUnsaved(s, name)) <==>
      forall w :: Unaware(s, w) ==>
        s.table.Some? &&
        (Choice(s) == Some(name) ==>
          !s.watchers[w].phase.Write?
          && Left(s, name) == FirstMatch(s.table.value, Config.Deleted(s.profiles, name)))
  {
    var after := Config.Deleted(s.profiles, name);
    var before := s.(current := Left(s, name));
    DeletedUnsavedIs(s, name);
    OnlyCurrent(s, Left(s, name));
    hide Next, KeepsPromise, DeletedUnsaved;
    UnannouncedIff(before, after);
    assert DeletedUnsaved(s, name) == before.(profiles := after);
    forall w | w in s.watchers ensures Unaware(before, w) <==> Unaware(s, w) { NotifiedSame(s, before, w); }
    forall w | Unaware(s, w)
      ensures s.table.Some?
      ensures Suits(before, w, after) <==>
        (Choice(s) == Some(name) ==>
          !s.watchers[w].phase.Write? && Left(s, name) == FirstMatch(s.table.value, after))
    {
      DeletionSuits(s, w, name);
    }
    hide Suits, Left, Unaware, Inv, Sane;
    assert forall w :: Unaware(before, w) <==> Unaware(s, w);
  }

  lemma OnlyCurrent(s: State, current: Option<string>)
    requires Inv(s)
    ensures Sane(s.(current := current))
  {
    var f := s.(current := current);
    forall w | w in s.watchers ensures LockAgrees(f, w) && StuckInv(f, w) && TableInv(f, w) && LedInv(f, w) {
      InvAt(s, w);
      assert ToBeStopped(s, w) ==> ToBeStopped(f, w) by {
        assert f.requests == s.requests;
      }
      hide ToBeStopped, Indexed;
    }
    hide LockAgrees, StuckInv, TableInv, LedInv, ProfileInv;
  }

  lemma DeletionSuits(s: State, w: nat, name: string)
    requires Inv(s) && Unaware(s, w) && Config.UniqueNames(s.profiles)
    ensures var after, before := Config.Deleted(s.profiles, name), s.(current := Left(s, name));
      s.table.Some? &&
      (Suits(before, w, after) <==>
        (Choice(s) == Some(name) ==>
          !s.watchers[w].phase.Write? && Left(s, name) == FirstMatch(s.table.value, after)))
  {
    PickIs(s, w);
    var after := Config.Deleted(s.profiles, name);
    Config.DeleteSwitchesIff(s.table.value, s.profiles, name);
    NamesAfterDelete(s.profiles, name);
    FirstMatchNamed(s.table.value, after);
    FirstMatchNamed(s.table.value, s.profiles);
    hide Inv, Indexed, FirstMatch, Named, Notified, Config.Deleted;
  }

  lemma NamesAfterDelete(profiles: Profiles, name: string)
    requires Config.UniqueNames(profiles)
    ensures forall other :: Named(Config.Deleted(profiles, name), other) <==> Named(profiles, other) && other != name
  {
    var after, at := Config.Deleted(profiles, name), Config.IndexOf(profiles, name);
    forall other ensures Named(after, other) <==> Named(profiles, other) && other != name {
      if k :| 0 <= k < |after| && after[k].name == other {
        assert profiles[if k < at then k else k + 1].name == other;
      }
      if k :| 0 <= k < |profiles| && profiles[k].name == other && other != name {
        assert after[if k < at then k else k - 1].name == other;
      }
    }
  }

  // ---------- A run of the program in which it happens ----------

  const PLAYED := EMPTY.(games := {0})

  lemma GameNoticed(s: State) returns (actions: seq<Action>)
    requires s == Running([], LISTENING)
    ensures Path(s, actions)
    ensures End(s, actions) == Running([], Watcher([], Compare(None), false)).(table := Some(PLAYED))
  {
    hide Path, End, Next;
    var game := GamemodeStart(0);
    ObserveStep(s, 0, game);
    var s1 := Next(s, Observe(0, game));
    assert EMPTY.games + {0} == {0};
    assert s1.watchers == map[0 := Watcher([], Debounce, false)];
    assert s1 == Running([], Watcher([], Debounce, false)).(table := Some(PLAYED));
    MoveStep(s1, DebounceEnds(0), 0);
    var s2 := Next(s1, DebounceEnds(0));
    assert s2 == Running([], Watcher([], Evaluate, false)).(table := Some(PLAYED));
    MoveStep(s2, DoEvaluate(0), 0);
    assert Evaluated(s2.table, []) == None;
    actions := Three(s, Observe(0, game), DebounceEnds(0), DoEvaluate(0));
  }

  /** A game starts, and while the watcher is about to compare its choice, an edit that wants another one fails. */
  lemma UnsavedEditReached() returns (before: seq<Action>, after: seq<Action>)
    ensures Path(StartWith([]), before)
    ensures var s := Next(End(StartWith([]), before), ChangeUnsaved([PLAYING]));
      Path(s, after) && Overlooks(End(s, after), 0)
  {
    hide Path, End, Next;
    var first := RunningReached();
    var second := GameNoticed(Running([], LISTENING));
    Append(StartWith([]), first, second);
    before := first + second;
    var s := End(StartWith([]), before);
    QuietStep(s, ChangeUnsaved([PLAYING]));
    var f := Next(s, ChangeUnsaved([PLAYING]));
    assert Active(PLAYED, PLAYING);
    assert FirstMatch(PLAYED, [PLAYING]) == Some("playing");
    assert f.table == Some(PLAYED) && f.profiles == [PLAYING] && f.current == None;
    assert !ToBeStopped(f, 0);
    hide FirstMatch, ToBeStopped, NamedOrNone;
    after := CompareOverlooks(f, 0, None);
  }
}
