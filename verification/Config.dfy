/** The daemon's configuration: per-GPU settings, by default or per profile, and the ordered profiles. */
module Config {
  import opened Wrappers
  import opened ProcessIndex
  import opened ProfileRules

  type Gpus<C> = map<string, C>

  datatype Config<C> = Config(gpus: Gpus<C>, profiles: seq<Profile<Gpus<C>>>, currentProfile: Option<string>)

  datatype Error = ProfileNotFound | AlreadyExists | OutOfBounds | SaveFailed

  ghost predicate UniqueNames<G>(profiles: seq<Profile<G>>) {
    forall i, j :: 0 <= i < j < |profiles| ==> profiles[i].name != profiles[j].name
  }

  /** Position of a profile, or the number of profiles if there is none of that name. */
  function IndexOf<G>(profiles: seq<Profile<G>>, name: string): (i: nat)
    ensures i <= |profiles|
    ensures i < |profiles| ==> profiles[i].name == name
    ensures forall k :: 0 <= k < i ==> profiles[k].name != name
  {
    if profiles == [] then 0
    else if profiles[0].name == name then 0
    else 1 + IndexOf(profiles[1..], name)
  }

  // ---------- Lookups ----------

  /** The GPU settings of the current profile; an error if that profile does not exist. */
  function CurrentGpus<C>(c: Config<C>): Result<Gpus<C>, Error> {
    if c.currentProfile.None? then Ok(c.gpus)
    else
      var i := IndexOf(c.profiles, c.currentProfile.value);
      if i == |c.profiles| then Err(ProfileNotFound) else Ok(c.profiles[i].gpus)
  }

  // ---------- The object that the daemon edits ----------

  datatype ProfileBase = Empty | Default | FromProfile(name: string)

  function NewProfile<C>(c: Config<C>, name: string, base: ProfileBase): Result<Profile<Gpus<C>>, Error> {
    match base
    case Empty => Ok(Profile(name, map[], None))
    case Default => Ok(Profile(name, c.gpus, None))
    case FromProfile(source) =>
      var i := IndexOf(c.profiles, source);
      if i == |c.profiles| then Err(ProfileNotFound) else Ok(c.profiles[i].(name := name))
  }

  class ConfigHolder<C> {
    var gpus: Gpus<C>
    var profiles: seq<Profile<Gpus<C>>>
    var currentProfile: Option<string>

    ghost function Contents(): Config<C>
      reads this
    {
      Config(gpus, profiles, currentProfile)
    }

    constructor ()
      ensures Contents() == Config(map[], [], None)
    {
      gpus, profiles, currentProfile := map[], [], None;
    }

    /** Stores settings for a GPU in the current profile; false if that profile does not exist. */
    method InsertGpu(id: string, gpuConfig: C) returns (ok: bool)
      modifies this
      ensures ok <==> CurrentGpus(old(Contents())).Ok?
      ensures Contents() == GpuInserted(old(Contents()), id, gpuConfig)
    {
      ok := true;
      if currentProfile.None? {
        gpus := gpus[id := gpuConfig];
      } else {
        var i := IndexOf(profiles, currentProfile.value);
        if i == |profiles| {
          ok := false;
        } else {
          profiles := profiles[i := profiles[i].(gpus := profiles[i].gpus[id := gpuConfig])];
        }
      }
    }

    /** `saved` is whether the file could be written; if not, the new profile stays in memory all the same. */
    method CreateProfile(name: string, base: ProfileBase, saved: bool) returns (result: Result<(), Error>)
      modifies this
      ensures var created := IndexOf(old(profiles), name) == |old(profiles)| &&
          NewProfile(old(Contents()), name, base).Ok?;
        && (result.Ok? <==> created && saved)
        && (result == Err(SaveFailed) <==> created && !saved)
        && Contents() == if created then Created(old(Contents()), name, base) else old(Contents())
    {
      if IndexOf(profiles, name) < |profiles| {
        return Err(AlreadyExists);
      }
      match base {
        case Empty => profiles := profiles + [Profile(name, map[], None)];
        case Default => profiles := profiles + [Profile(name, gpus, None)];
        case FromProfile(source) =>
          var i := IndexOf(profiles, source);
          if i == |profiles| {
            return Err(ProfileNotFound);
          }
          profiles := profiles + [profiles[i].(name := name)];
      }
      result := if saved then Ok(()) else Err(SaveFailed);
    }

    /** Removes a profile if it exists, keeping the order of the others. */
    method ShiftRemoveProfile(name: string)
      modifies this
      ensures Contents() == old(Contents()).(profiles := Deleted(old(profiles), name))
    {
      var i := IndexOf(profiles, name);
      if i < |profiles| {
        profiles := profiles[..i] + profiles[i + 1..];
      }
    }

    method MoveProfile(name: string, newPosition: nat, saved: bool) returns (result: Result<(), Error>)
      modifies this
      ensures var moved := IndexOf(old(profiles), name) < |old(profiles)| && newPosition < |old(profiles)|;
        && (result.Ok? <==> moved && saved)
        && (result == Err(SaveFailed) <==> moved && !saved)
        && Contents() == old(Contents()).(profiles :=
            if moved then Swapped(old(profiles), IndexOf(old(profiles), name), newPosition) else old(profiles))
    {
      var currentIndex := IndexOf(profiles, name);
      if currentIndex == |profiles| {
        return Err(ProfileNotFound);
      }
      if newPosition >= |profiles| {
        return Err(OutOfBounds);
      }
      profiles := profiles[currentIndex := profiles[newPosition]][newPosition := profiles[currentIndex]];
      result := if saved then Ok(()) else Err(SaveFailed);
    }

    method SetProfileRule(name: string, rule: Option<ProfileRule>, saved: bool) returns (result: Result<(), Error>)
      modifies this
      ensures var found := IndexOf(old(profiles), name) < |old(profiles)|;
        && (result.Ok? <==> found && saved)
        && (result == Err(SaveFailed) <==> found && !saved)
      ensures Contents() == old(Contents()).(profiles := RuleSet(old(profiles), name, rule))
    {
      var i := IndexOf(profiles, name);
      if i == |profiles| {
        return Err(ProfileNotFound);
      }
      profiles := profiles[i := profiles[i].(rule := rule)];
      result := if saved then Ok(()) else Err(SaveFailed);
    }
  }

  function GpuInserted<C>(c: Config<C>, id: string, gpuConfig: C): Config<C> {
    if c.currentProfile.None? then c.(gpus := c.gpus[id := gpuConfig])
    else
      var i := IndexOf(c.profiles, c.currentProfile.value);
      if i == |c.profiles| then c
      else c.(profiles := c.profiles[i := c.profiles[i].(gpus := c.profiles[i].gpus[id := gpuConfig])])
  }

  function Created<C>(c: Config<C>, name: string, base: ProfileBase): Config<C>
    requires NewProfile(c, name, base).Ok?
  {
    c.(profiles := c.profiles + [NewProfile(c, name, base).value])
  }

  function Deleted<G>(profiles: seq<Profile<G>>, name: string): seq<Profile<G>> {
    var i := IndexOf(profiles, name);
    if i == |profiles| then profiles else profiles[..i] + profiles[i + 1..]
  }

  function Swapped<G>(profiles: seq<Profile<G>>, i: nat, j: nat): seq<Profile<G>>
    requires i < |profiles| && j < |profiles|
  {
    profiles[i := profiles[j]][j := profiles[i]]
  }

  function RuleSet<G>(profiles: seq<Profile<G>>, name: string, rule: Option<ProfileRule>): seq<Profile<G>> {
    var i := IndexOf(profiles, name);
    if i == |profiles| then profiles else profiles[i := profiles[i].(rule := rule)]
  }

  // ---------- Settings of one GPU ----------

  /** The profiles looked at with everything but names and rules left out. */
  ghost predicate SameRules<G>(a: seq<Profile<G>>, b: seq<Profile<G>>) {
    |a| == |b| && forall i :: 0 <= i < |a| ==> a[i].name == b[i].name && a[i].rule == b[i].rule
  }

  lemma {:induction false} SameRulesSameMatch<G>(s: WatcherState, a: seq<Profile<G>>, b: seq<Profile<G>>)
    requires SameRules(a, b)
    ensures FirstMatch(s, a) == FirstMatch(s, b)
  {
    if a != [] {
      SameRulesSameMatch(s, a[1..], b[1..]);
    }
  }

  lemma {:induction false} SameNamesSameIndex<G>(a: seq<Profile<G>>, b: seq<Profile<G>>, name: string)
    requires |a| == |b| && forall i :: 0 <= i < |a| ==> a[i].name == b[i].name
    ensures IndexOf(a, name) == IndexOf(b, name)
  {
    if a != [] {
      SameNamesSameIndex(a[1..], b[1..], name);
    }
  }

  /** Saving a GPU's settings is visible in the current profile only, and cannot change which profile matches. */
  lemma {:induction false} InsertThenLookup<C>(c: Config<C>, id: string, gpuConfig: C, s: WatcherState)
    requires CurrentGpus(c).Ok?
    ensures var after := GpuInserted(c, id, gpuConfig);
      && CurrentGpus(after) == Ok(CurrentGpus(c).value[id := gpuConfig])
      && after.currentProfile == c.currentProfile
      && FirstMatch(s, after.profiles) == FirstMatch(s, c.profiles)
      && (c.currentProfile.Some? ==> after.gpus == c.gpus)
      && (c.currentProfile.None? ==> after.profiles == c.profiles)
      && |after.profiles| == |c.profiles|
      && (c.currentProfile.Some? ==>
            forall i :: 0 <= i < |c.profiles| && i != IndexOf(c.profiles, c.currentProfile.value) ==>
              after.profiles[i] == c.profiles[i])
  {
    var after := GpuInserted(c, id, gpuConfig);
    SameRulesSameMatch(s, after.profiles, c.profiles);
    if c.currentProfile.Some? {
      SameNamesSameIndex(after.profiles, c.profiles, c.currentProfile.value);
    }
  }

  // ---------- How editing profiles affects the automatic choice ----------

  lemma {:induction false} MatchOfAppend<G>(s: WatcherState, profiles: seq<Profile<G>>, last: Profile<G>)
    ensures FirstMatch(s, profiles + [last]) ==
      if FirstMatch(s, profiles).Some? then FirstMatch(s, profiles)
      else if Active(s, last) then Some(last.name) else None
  {
    if profiles != [] {
      assert (profiles + [last])[1..] == profiles[1..] + [last];
      MatchOfAppend(s, profiles[1..], last);
    } else {
      assert ([] + [last])[1..] == [];
    }
  }

  /** A new profile is last and either has no rule or one that an earlier profile has: it is never chosen. */
  lemma {:induction false} CreateNeverSwitches<C>(s: WatcherState, c: Config<C>, name: string, base: ProfileBase)
    requires NewProfile(c, name, base).Ok?
    ensures FirstMatch(s, Created(c, name, base).profiles) == FirstMatch(s, c.profiles)
  {
    var created := NewProfile(c, name, base).value;
    MatchOfAppend(s, c.profiles, created);
    if FirstMatch(s, c.profiles).None? {
      NoneActive(s, c.profiles);
    }
  }

  lemma {:induction false} NoneActive<G>(s: WatcherState, profiles: seq<Profile<G>>)
    requires FirstMatch(s, profiles).None?
    ensures forall i :: 0 <= i < |profiles| ==> !Active(s, profiles[i])
  {
    if profiles != [] {
      NoneActive(s, profiles[1..]);
      assert forall i :: 1 <= i < |profiles| ==> profiles[i] == profiles[1..][i - 1];
    }
  }

  lemma {:induction false} MatchOfConcat<G>(s: WatcherState, a: seq<Profile<G>>, b: seq<Profile<G>>)
    ensures FirstMatch(s, a + b) == if FirstMatch(s, a).Some? then FirstMatch(s, a) else FirstMatch(s, b)
  {
    if a == [] {
      assert a + b == b;
    } else {
      assert (a + b)[1..] == a[1..] + b;
      MatchOfConcat(s, a[1..], b);
    }
  }

  /** Deleting a profile changes the automatic choice exactly when it is the chosen one. */
  lemma {:induction false} DeleteSwitchesIff<G>(s: WatcherState, profiles: seq<Profile<G>>, name: string)
    requires UniqueNames(profiles)
    ensures FirstMatch(s, Deleted(profiles, name)) != FirstMatch(s, profiles) <==> FirstMatch(s, profiles) == Some(name)
  {
    var i := IndexOf(profiles, name);
    if i < |profiles| {
      assert profiles == profiles[..i] + ([profiles[i]] + profiles[i + 1..]);
      MatchOfConcat(s, profiles[..i], [profiles[i]] + profiles[i + 1..]);
      MatchOfConcat(s, profiles[..i], profiles[i + 1..]);
      MatchOfConcat(s, [profiles[i]], profiles[i + 1..]);
      assert FirstMatch(s, [profiles[i]]) == if Active(s, profiles[i]) then Some(name) else None;
    }
    FirstMatchNamed(s, Deleted(profiles, name));
    FirstMatchNamed(s, profiles);
  }

  /** Moving swaps two positions: nothing is lost, and moving back restores the order. */
  lemma MoveIsInvertible<G>(profiles: seq<Profile<G>>, i: nat, j: nat)
    requires i < |profiles| && j < |profiles|
    ensures Swapped(Swapped(profiles, i, j), i, j) == profiles
    ensures UniqueNames(profiles) ==> UniqueNames(Swapped(profiles, i, j))
    ensures forall k :: 0 <= k < |profiles| ==>
      Swapped(profiles, i, j)[k] == profiles[if k == i then j else if k == j then i else k]
  {}

  /** Deleting takes out the named profile and keeps the others, settings and all, in their order. */
  lemma DeletedIs<G>(profiles: seq<Profile<G>>, name: string)
    ensures (forall i :: 0 <= i < |profiles| ==> profiles[i].name != name) ==> Deleted(profiles, name) == profiles
    ensures forall i: nat :: FoundAt(profiles, name, i) ==>
      && |Deleted(profiles, name)| == |profiles| - 1
      && forall k :: 0 <= k < |profiles| - 1 ==> Deleted(profiles, name)[k] == profiles[if k < i then k else k + 1]
  {
    forall i: nat | FoundAt(profiles, name, i) ensures i == IndexOf(profiles, name) {}
  }

  /** Setting a rule changes nothing but that rule, and nothing at all for an unknown name. */
  lemma RuleSetIs<G>(profiles: seq<Profile<G>>, name: string, rule: Option<ProfileRule>)
    ensures |RuleSet(profiles, name, rule)| == |profiles|
    ensures (forall i :: 0 <= i < |profiles| ==> profiles[i].name != name) ==> RuleSet(profiles, name, rule) == profiles
    ensures forall i: nat :: FoundAt(profiles, name, i) ==> forall k :: 0 <= k < |profiles| ==>
      RuleSet(profiles, name, rule)[k] == if k == i then profiles[k].(rule := rule) else profiles[k]
  {
    forall i: nat | FoundAt(profiles, name, i) ensures i == IndexOf(profiles, name) {}
  }

  /** No profile of this name comes before position `i`, which has it. */
  ghost predicate FoundAt<G>(profiles: seq<Profile<G>>, name: string, i: nat) {
    i < |profiles| && profiles[i].name == name && forall k :: 0 <= k < i ==> profiles[k].name != name
  }

  /**
    A new profile is empty, or has the default settings and no rule, or the settings and the rule of the
    profile that it is based on, which must exist. It goes behind the others, which stay as they are.
   */
  lemma CreatedFrom<C>(c: Config<C>, name: string, base: ProfileBase)
    ensures base.FromProfile? ==>
        (NewProfile(c, name, base).Ok? <==> exists i: nat :: FoundAt(c.profiles, base.name, i))
    ensures !base.FromProfile? ==> NewProfile(c, name, base).Ok?
    ensures NewProfile(c, name, base).Ok? ==>
      var after := Created(c, name, base);
      && |after.profiles| == |c.profiles| + 1 && after.profiles[..|c.profiles|] == c.profiles
      && after.gpus == c.gpus && after.currentProfile == c.currentProfile
      && var p := after.profiles[|c.profiles|];
        && p.name == name
        && (base.Empty? ==> p.gpus == map[] && p.rule == None)
        && (base.Default? ==> p.gpus == c.gpus && p.rule == None)
        && (base.FromProfile? ==> forall i: nat :: FoundAt(c.profiles, base.name, i) ==>
              p.gpus == c.profiles[i].gpus && p.rule == c.profiles[i].rule)
  {
    if base.FromProfile? {
      var i := IndexOf(c.profiles, base.name);
      assert i < |c.profiles| ==> FoundAt(c.profiles, base.name, i);
      forall k: nat | FoundAt(c.profiles, base.name, k) ensures k == i {}
    }
  }

  lemma {:induction false} FirstActive<G>(s: WatcherState, profiles: seq<Profile<G>>) returns (m: nat)
    ensures m <= |profiles| && (m < |profiles| ==> Active(s, profiles[m]))
    ensures forall k :: 0 <= k < m ==> !Active(s, profiles[k])
    ensures FirstMatch(s, profiles) == if m < |profiles| then Some(profiles[m].name) else None
  {
    m := 0;
    while m < |profiles| && !Active(s, profiles[m])
      invariant m <= |profiles| && forall k :: 0 <= k < m ==> !Active(s, profiles[k])
    {
      m := m + 1;
    }
    FirstMatchIs(s, profiles, m);
  }

  /** Some profile after position `from` and before position `to` has a matching rule. */
  ghost predicate ActiveBetween<G>(s: WatcherState, profiles: seq<Profile<G>>, from: int, to: int) {
    exists k :: 0 <= k < |profiles| && from < k < to && Active(s, profiles[k])
  }

  /**
    Swapping the profiles at `lo` and `hi` matters: none before them matches, and either the earlier of
    the two and another one up to the later match, or the later one and another one between them.
   */
  ghost predicate SwapMatters<G>(s: WatcherState, profiles: seq<Profile<G>>, lo: nat, hi: nat)
    requires lo <= hi < |profiles|
  {
    && !ActiveBetween(s, profiles, -1, lo)
    && ((Active(s, profiles[lo]) && ActiveBetween(s, profiles, lo, hi + 1))
        || (Active(s, profiles[hi]) && ActiveBetween(s, profiles, lo, hi)))
  }

  /** Exactly when moving a profile changes the automatic choice. */
  lemma {:induction false} MoveSwitchesIff<G>(s: WatcherState, profiles: seq<Profile<G>>, i: nat, j: nat)
    requires UniqueNames(profiles) && i < |profiles| && j < |profiles|
    ensures FirstMatch(s, Swapped(profiles, i, j)) != FirstMatch(s, profiles)
       <==> SwapMatters(s, profiles, if i < j then i else j, if i < j then j else i)
  {
    var lo, hi := if i < j then i else j, if i < j then j else i;
    var swapped := Swapped(profiles, i, j);
    assert swapped == profiles[lo := profiles[hi]][hi := profiles[lo]];
    var m := FirstActive(s, profiles);
    var n := FirstActive(s, swapped);
    hide Swapped, FirstMatch, Active;
    if m < lo {
      assert Active(s, swapped[m]) && n == m;
    } else if m == lo {
      assert Active(s, swapped[hi]);
      assert n < hi <==> ActiveBetween(s, profiles, lo, hi + 1) by {
        if n < hi { assert Active(s, profiles[if n == lo then hi else n]); }
        if k :| 0 <= k < |profiles| && lo < k < hi + 1 && Active(s, profiles[k]) {
          assert Active(s, swapped[if k == hi then lo else k]);
        }
      }
      assert n == hi ==> !ActiveBetween(s, profiles, lo, hi);
    } else if m < hi {
      assert Active(s, swapped[m]) && swapped[lo] == profiles[hi];
      assert forall k :: 0 <= k < lo ==> swapped[k] == profiles[k];
      assert n == lo <==> Active(s, profiles[hi]);
    } else if m == hi {
      assert Active(s, swapped[lo]) && n == lo;
    } else {
      assert forall k :: 0 <= k <= hi ==> !Active(s, swapped[k]);
      assert m < |profiles| ==> Active(s, swapped[m]);
      assert n == m;
    }
  }

  /**
    Exactly when setting a rule changes the automatic choice: no earlier profile matches, and this
    one's match changes.
   */
  lemma {:induction false} RuleSwitchesIff<G>(s: WatcherState, profiles: seq<Profile<G>>, i: nat,
      rule: Option<ProfileRule>)
    requires UniqueNames(profiles) && i < |profiles|
    ensures RuleSet(profiles, profiles[i].name, rule) == profiles[i := profiles[i].(rule := rule)]
    ensures FirstMatch(s, RuleSet(profiles, profiles[i].name, rule)) != FirstMatch(s, profiles)
       <==> !ActiveBetween(s, profiles, -1, i) && Active(s, profiles[i]) != (rule.Some? && Matches(s, rule.value))
  {
    assert IndexOf(profiles, profiles[i].name) == i;
    var after := profiles[i := profiles[i].(rule := rule)];
    var m := FirstActive(s, profiles);
    var n := FirstActive(s, after);
    assert Active(s, after[i]) == (rule.Some? && Matches(s, rule.value));
    hide FirstMatch, Matches, Active;
    assert forall k :: 0 <= k < |profiles| && k != i ==> after[k] == profiles[k];
  }
}
