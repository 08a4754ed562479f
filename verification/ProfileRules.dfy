/** Matching profile rules against the process table, and choosing the profile to activate. */
module ProfileRules {
  import opened Wrappers
  import opened ProcessIndex

  datatype ProcessRule = ProcessRule(name: string, args: Option<string>)

  datatype ProfileRule = Process(rule: ProcessRule) | Gamemode(game: Option<ProcessRule>)

  predicate Contains(s: string, part: string) {
    exists i :: 0 <= i <= |s| - |part| && OccursAt(s, part, i)
  }

  predicate OccursAt(s: string, part: string, i: int)
    requires 0 <= i <= |s| - |part|
  {
    s[i..i + |part|] == part
  }

  /** The part occurs somewhere, with anything before and after it. */
  lemma ContainsIff(s: string, part: string)
    ensures Contains(s, part) <==> exists before, after :: s == Surrounded(before, part, after)
  {
    if Contains(s, part) {
      var i :| 0 <= i <= |s| - |part| && OccursAt(s, part, i);
      assert s == Surrounded(s[..i], part, s[i + |part|..]);
    }
    if before, after :| s == Surrounded(before, part, after) {
      assert OccursAt(s, part, |before|);
    }
  }

  function Surrounded(before: string, part: string, after: string): string {
    before + part + after
  }

  // ---------- What a rule means ----------

  /** The process carries the rule's name and, if the rule has a filter, its command line contains it. */
  predicate ProcessFits(info: ProcessInfo, rule: ProcessRule) {
    info.name == rule.name && (rule.args.Some? ==> Contains(info.cmdline, rule.args.value))
  }

  /** A scan over all processes, without the index. */
  predicate Matches(s: WatcherState, rule: ProfileRule) {
    match rule
    case Process(r) => exists pid :: pid in s.processes && ProcessFits(s.processes[pid], r)
    case Gamemode(None) => s.games != {}
    case Gamemode(Some(r)) => exists pid :: pid in s.processes && pid in s.games && ProcessFits(s.processes[pid], r)
  }

  /** A process of the rule's name whose command line has the rule's arguments, if any, somewhere in it. */
  ghost predicate Wanted(s: WatcherState, rule: ProcessRule, pid: int) {
    && pid in s.processes && s.processes[pid].name == rule.name
    && (rule.args.Some? ==>
          exists before, after :: s.processes[pid].cmdline == Surrounded(before, rule.args.value, after))
  }

  /** A process rule wants some process; a gamemode rule any game, or a process that is a game. */
  lemma MatchesIff(s: WatcherState, rule: ProcessRule)
    ensures Matches(s, Process(rule)) <==> exists pid :: Wanted(s, rule, pid)
    ensures Matches(s, Gamemode(Some(rule))) <==> exists pid :: Wanted(s, rule, pid) && pid in s.games
    ensures Matches(s, Gamemode(None)) <==> exists pid :: pid in s.games
  {
    forall pid | pid in s.processes ensures ProcessFits(s.processes[pid], rule) <==> Wanted(s, rule, pid) {
      if rule.args.Some? { ContainsIff(s.processes[pid].cmdline, rule.args.value); }
    }
    SomePid(s.games);
    hide ProcessFits, Contains;
  }

  // ---------- How the program evaluates it ----------

  /** Evaluation through the name index. */
  predicate IndexedMatches(s: WatcherState, rule: ProfileRule) {
    match rule
    case Process(r) =>
      r.name in s.names && (r.args.None? || exists pid :: pid in s.names[r.name] && Filtered(s, pid, r.args.value))
    case Gamemode(None) => s.games != {}
    case Gamemode(Some(r)) =>
      r.name in s.names && exists pid :: pid in s.names[r.name] && InGame(s, pid, r)
  }

  predicate Filtered(s: WatcherState, pid: int, args: string) {
    pid in s.processes && Contains(s.processes[pid].cmdline, args)
  }

  predicate InGame(s: WatcherState, pid: int, r: ProcessRule) {
    pid in s.games && (r.args.Some? ==> Filtered(s, pid, r.args.value))
  }

  /** On a table that is properly indexed, the lookup agrees with the scan for every form of rule. */
  lemma LookupMatchesScan(s: WatcherState, rule: ProfileRule)
    requires Indexed(s)
    ensures IndexedMatches(s, rule) == Matches(s, rule)
  {
    match rule
    case Process(r) =>
      LookupFindsProcesses(s, r);
    case Gamemode(None) =>
    case Gamemode(Some(r)) =>
      IndexedNames(s, r.name);
      if Matches(s, rule) {
        var pid :| pid in s.processes && pid in s.games && ProcessFits(s.processes[pid], r);
        assert pid in PidsNamed(s.processes, r.name) && InGame(s, pid, r);
      }
      if IndexedMatches(s, rule) {
        var pid :| pid in s.names[r.name] && InGame(s, pid, r);
        assert pid in PidsNamed(s.processes, r.name) && ProcessFits(s.processes[pid], r);
      }
  }

  lemma LookupFindsProcesses(s: WatcherState, r: ProcessRule)
    requires Indexed(s)
    ensures IndexedMatches(s, Process(r)) == Matches(s, Process(r))
  {
    IndexedNames(s, r.name);
    if Matches(s, Process(r)) {
      var pid :| pid in s.processes && ProcessFits(s.processes[pid], r);
      assert pid in PidsNamed(s.processes, r.name);
      assert r.args.Some? ==> Filtered(s, pid, r.args.value);
    }
    if IndexedMatches(s, Process(r)) {
      SomePid(s.names[r.name]);
      var pid :| pid in s.names[r.name] && (r.args.Some? ==> Filtered(s, pid, r.args.value));
      assert pid in PidsNamed(s.processes, r.name) && ProcessFits(s.processes[pid], r);
    }
  }

  /**
    Looks the name up in the index. `notFound` tells whether an indexed pid was missing from the
    table, which the program logs as an error; that cannot happen on an indexed table.
   */
  method ProfileRuleMatches(s: WatcherState, rule: ProfileRule) returns (matches: bool, notFound: bool)
    ensures matches == IndexedMatches(s, rule)
    ensures Indexed(s) ==> matches == Matches(s, rule) && !notFound
  {
    if Indexed(s) { LookupMatchesScan(s, rule); }
    notFound := false;
    match rule {
      case Process(r) =>
        if r.name in s.names {
          if r.args.None? { return true, false; }
          matches, notFound := AnyFiltered(s, s.names[r.name], r.args.value);
          NotFoundMeansNotIndexed(s, r.name);
        } else {
          matches := false;
        }
      case Gamemode(None) =>
        matches := s.games != {};
      case Gamemode(Some(r)) =>
        if r.name in s.names {
          matches, notFound := AnyInGame(s, s.names[r.name], r);
          NotFoundMeansNotIndexed(s, r.name);
        } else {
          matches := false;
        }
    }
  }

  lemma NotFoundMeansNotIndexed(s: WatcherState, name: string)
    requires name in s.names
    ensures Indexed(s) ==> forall pid :: pid in s.names[name] ==> pid in s.processes
  {}

  method AnyFiltered(s: WatcherState, pids: set<int>, args: string) returns (found: bool, notFound: bool)
    ensures found <==> exists pid :: pid in pids && Filtered(s, pid, args)
    ensures notFound ==> exists pid :: pid in pids && pid !in s.processes
  {
    notFound := false;
    var rest := pids;
    while rest != {}
      invariant rest <= pids
      invariant forall pid :: pid in pids && pid !in rest ==> !Filtered(s, pid, args)
      invariant notFound ==> exists pid :: pid in pids && pid !in s.processes
    {
      SomePid(rest);
      var pid :| pid in rest;
      if pid in s.processes {
        if Contains(s.processes[pid].cmdline, args) {
          assert Filtered(s, pid, args);
          return true, notFound;
        }
      } else {
        notFound := true;
      }
      rest := rest - {pid};
    }
    found := false;
  }

  method AnyInGame(s: WatcherState, pids: set<int>, r: ProcessRule) returns (found: bool, notFound: bool)
    ensures found <==> exists pid :: pid in pids && InGame(s, pid, r)
    ensures notFound ==> exists pid :: pid in pids && pid !in s.processes
  {
    notFound := false;
    var rest := pids;
    while rest != {}
      invariant rest <= pids
      invariant forall pid :: pid in pids && pid !in rest ==> !InGame(s, pid, r)
      invariant notFound ==> exists pid :: pid in pids && pid !in s.processes
    {
      SomePid(rest);
      var pid :| pid in rest;
      if pid in s.games {
        if r.args.None? {
          assert InGame(s, pid, r);
          return true, notFound;
        }
        if pid in s.processes {
          if Contains(s.processes[pid].cmdline, r.args.value) {
            assert InGame(s, pid, r);
            return true, notFound;
          }
        } else {
          notFound := true;
        }
      }
      rest := rest - {pid};
    }
    found := false;
  }

  // ---------- Choosing a profile ----------

  datatype Profile<G> = Profile(name: string, gpus: G, rule: Option<ProfileRule>)

  predicate Active<G>(s: WatcherState, p: Profile<G>) {
    p.rule.Some? && Matches(s, p.rule.value)
  }

  /** The first profile, in their order, whose rule matches; profiles without a rule never do. */
  function FirstMatch<G>(s: WatcherState, profiles: seq<Profile<G>>): Option<string> {
    if profiles == [] then None
    else if Active(s, profiles[0]) then Some(profiles[0].name)
    else FirstMatch(s, profiles[1..])
  }

  method EvaluateCurrentProfile<G>(s: WatcherState, profiles: seq<Profile<G>>) returns (active: Option<string>)
    ensures Indexed(s) ==> active == FirstMatch(s, profiles)
  {
    for i := 0 to |profiles|
      invariant Indexed(s) ==> FirstMatch(s, profiles) == FirstMatch(s, profiles[i..])
    {
      if profiles[i].rule.Some? {
        var matches, _ := ProfileRuleMatches(s, profiles[i].rule.value);
        if matches {
          return Some(profiles[i].name);
        }
      }
    }
    active := None;
  }

  lemma {:induction false} FirstMatchIs<G>(s: WatcherState, profiles: seq<Profile<G>>, i: nat)
    requires i <= |profiles|
    requires forall k :: 0 <= k < i ==> !Active(s, profiles[k])
    ensures i == |profiles| ==> FirstMatch(s, profiles) == None
    ensures i < |profiles| && Active(s, profiles[i]) ==> FirstMatch(s, profiles) == Some(profiles[i].name)
  {
    if i > 0 {
      FirstMatchIs(s, profiles[1..], i - 1);
    }
  }

  predicate Named<G>(profiles: seq<Profile<G>>, name: string) {
    exists i :: 0 <= i < |profiles| && profiles[i].name == name
  }

  lemma {:induction false} FirstMatchNamed<G>(s: WatcherState, profiles: seq<Profile<G>>)
    ensures FirstMatch(s, profiles).Some? ==> Named(profiles, FirstMatch(s, profiles).value)
  {
    if profiles != [] && !Active(s, profiles[0]) {
      FirstMatchNamed(s, profiles[1..]);
      if FirstMatch(s, profiles).Some? {
        var i :| 0 <= i < |profiles[1..]| && profiles[1..][i].name == FirstMatch(s, profiles).value;
        assert profiles[i + 1].name == FirstMatch(s, profiles).value;
      }
    } else if profiles != [] {
      assert profiles[0].name == FirstMatch(s, profiles).value;
    }
  }
}
