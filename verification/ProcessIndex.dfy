/** The table of running processes and its index by process name. */
module ProcessIndex {
  import opened Wrappers

  datatype ProcessInfo = ProcessInfo(name: string, cmdline: string)

  datatype WatcherState = WatcherState(processes: map<int, ProcessInfo>, games: set<int>, names: map<string, set<int>>)

  const EMPTY := WatcherState(map[], {}, map[])

  // ---------- The operations ----------

  /** Takes a pid out of the set for a name, and the name out of the index when its set gets empty. */
  function DropPid(names: map<string, set<int>>, name: string, pid: int): map<string, set<int>> {
    if name !in names then names
    else if names[name] - {pid} == {} then names - {name}
    else names[name := names[name] - {pid}]
  }

  function AddPid(names: map<string, set<int>>, name: string, pid: int): map<string, set<int>> {
    names[name := (if name in names then names[name] else {}) + {pid}]
  }

  function Pushed(s: WatcherState, pid: int, info: ProcessInfo): WatcherState {
    var names := if pid in s.processes then DropPid(s.names, s.processes[pid].name, pid) else s.names;
    s.(processes := s.processes[pid := info], names := AddPid(names, info.name, pid))
  }

  function Removed(s: WatcherState, pid: int): WatcherState {
    if pid !in s.processes then s
    else s.(processes := s.processes - {pid}, names := DropPid(s.names, s.processes[pid].name, pid))
  }

  class ProfileWatcherState {
    var processList: map<int, ProcessInfo>
    var gamemodeGames: set<int>
    var processNamesMap: map<string, set<int>>

    ghost function Contents(): WatcherState
      reads this
    {
      WatcherState(processList, gamemodeGames, processNamesMap)
    }

    constructor ()
      ensures Contents() == EMPTY
    {
      processList, gamemodeGames, processNamesMap := map[], {}, map[];
    }

    method PushProcess(pid: int, info: ProcessInfo)
      modifies this
      ensures Contents() == Pushed(old(Contents()), pid, info)
    {
      if pid in processList {
        var oldName := processList[pid].name;
        processList := processList[pid := info];
        if oldName in processNamesMap {
          processNamesMap := processNamesMap[oldName := processNamesMap[oldName] - {pid}];
          if processNamesMap[oldName] == {} {
            processNamesMap := processNamesMap - {oldName};
          }
        }
      } else {
        processList := processList[pid := info];
      }
      if info.name !in processNamesMap {
        processNamesMap := processNamesMap[info.name := {}];
      }
      processNamesMap := processNamesMap[info.name := processNamesMap[info.name] + {pid}];
    }

    /** Returns the process only if it was the last one of its name. */
    method RemoveProcess(pid: int) returns (removed: Option<ProcessInfo>)
      modifies this
      ensures Contents() == Removed(old(Contents()), pid)
      ensures old(Indexed(Contents())) ==>
        (removed.Some? <==> pid in old(processList) && LastOfItsName(old(processList), pid))
      ensures removed.Some? ==> pid in old(processList) && removed.value == old(processList)[pid]
    {
      removed := None;
      if pid in processList {
        var info := processList[pid];
        if Indexed(Contents()) { LastPid(Contents(), pid); }
        processList := processList - {pid};
        if info.name in processNamesMap {
          processNamesMap := processNamesMap[info.name := processNamesMap[info.name] - {pid}];
          if processNamesMap[info.name] == {} {
            processNamesMap := processNamesMap - {info.name};
            removed := Some(info);
          }
        }
      }
    }
  }

  // ---------- The index is the inverse of the table ----------

  lemma SomePid(pids: set<int>)
    ensures pids != {} ==> exists pid :: pid in pids
  {
    if forall pid :: pid !in pids {
      assert pids == {};
    }
  }

  ghost predicate LastOfItsName(processes: map<int, ProcessInfo>, pid: int)
    requires pid in processes
  {
    forall other :: other in processes && other != pid ==> processes[other].name != processes[pid].name
  }

  lemma LastPid(s: WatcherState, pid: int)
    requires Indexed(s) && pid in s.processes
    ensures s.processes[pid].name in s.names
    ensures LastOfItsName(s.processes, pid) <==> s.names[s.processes[pid].name] - {pid} == {}
  {
    var pids := s.names[s.processes[pid].name];
    SomePid(pids - {pid});
    if pids - {pid} != {} {
      var other :| other in pids - {pid};
      assert s.processes[other].name == s.processes[pid].name;
    }
    forall other | other in s.processes && other != pid && s.processes[other].name == s.processes[pid].name
      ensures pids - {pid} != {}
    {
      assert other in pids - {pid};
    }
  }

  ghost function PidsNamed(processes: map<int, ProcessInfo>, name: string): set<int> {
    set pid | pid in processes && processes[pid].name == name
  }

  /** Each name maps to precisely the pids that carry it, and only names in use are listed. */
  ghost predicate Indexed(s: WatcherState) {
    && (forall name :: name in s.names ==> s.names[name] == PidsNamed(s.processes, name) && s.names[name] != {})
    && (forall pid :: pid in s.processes ==> s.processes[pid].name in s.names)
  }

  lemma IndexedNames(s: WatcherState, name: string)
    requires Indexed(s)
    ensures name in s.names <==> PidsNamed(s.processes, name) != {}
    ensures forall pid :: pid in PidsNamed(s.processes, name) <==> name in s.names && pid in s.names[name]
  {
    SomePid(PidsNamed(s.processes, name));
    if PidsNamed(s.processes, name) != {} {
      var pid :| pid in PidsNamed(s.processes, name);
      assert s.processes[pid].name in s.names;
    }
  }

  lemma DropKeepsIndexed(s: WatcherState, pid: int)
    requires Indexed(s)
    ensures Indexed(Removed(s, pid))
  {
    if pid in s.processes {
      var after, oldName := Removed(s, pid), s.processes[pid].name;
      assert PidsNamed(after.processes, oldName) == PidsNamed(s.processes, oldName) - {pid};
      forall name | name != oldName ensures PidsNamed(after.processes, name) == PidsNamed(s.processes, name) {}
      forall other | other in after.processes ensures after.processes[other].name in after.names {
        if after.processes[other].name == oldName { assert other in s.names[oldName] - {pid}; }
      }
    }
  }

  lemma AddKeepsIndexed(s: WatcherState, pid: int, info: ProcessInfo)
    requires Indexed(s) && pid !in s.processes
    ensures Indexed(Pushed(s, pid, info))
  {
    var after := Pushed(s, pid, info);
    IndexedNames(s, info.name);
    assert PidsNamed(after.processes, info.name) == PidsNamed(s.processes, info.name) + {pid};
    forall name | name != info.name ensures PidsNamed(after.processes, name) == PidsNamed(s.processes, name) {}
    assert pid in after.names[info.name];
  }

  /** Reusing a pid, under the same name or another, is the same as removing and adding it. */
  lemma PushReplaces(s: WatcherState, pid: int, info: ProcessInfo)
    ensures Pushed(s, pid, info) == Pushed(Removed(s, pid), pid, info)
  {
    assert (s.processes - {pid})[pid := info] == s.processes[pid := info];
  }

  lemma PushKeepsIndexed(s: WatcherState, pid: int, info: ProcessInfo)
    requires Indexed(s)
    ensures Indexed(Pushed(s, pid, info))
  {
    PushReplaces(s, pid, info);
    DropKeepsIndexed(s, pid);
    AddKeepsIndexed(Removed(s, pid), pid, info);
  }

  // ---------- Any sequence of events ----------

  /** An `Exec` event carries what could be read about the process, if it still existed. */
  datatype Event = Exec(pid: int, info: Option<ProcessInfo>)
                 | Exit(pid: int)
                 | GamemodeStart(pid: int)
                 | GamemodeEnd(pid: int)

  function Handled(s: WatcherState, event: Event): WatcherState {
    match event
    case Exec(pid, info) => if info.Some? then Pushed(s, pid, info.value) else s
    case Exit(pid) => Removed(s, pid)
    case GamemodeStart(pid) => s.(games := s.games + {pid})
    case GamemodeEnd(pid) => s.(games := s.games - {pid})
  }

  function HandledAll(s: WatcherState, events: seq<Event>): WatcherState {
    if events == [] then s else Handled(HandledAll(s, events[..|events| - 1]), events[|events| - 1])
  }

  lemma {:induction false} EventsKeepIndexed(s: WatcherState, events: seq<Event>)
    requires Indexed(s)
    ensures Indexed(HandledAll(s, events))
  {
    if events != [] {
      var before, event := HandledAll(s, events[..|events| - 1]), events[|events| - 1];
      EventsKeepIndexed(s, events[..|events| - 1]);
      match event
      case Exec(pid, info) => if info.Some? { PushKeepsIndexed(before, pid, info.value); }
      case Exit(pid) => DropKeepsIndexed(before, pid);
      case GamemodeStart(_) =>
      case GamemodeEnd(_) =>
    }
  }

  // ---------- What the table holds ----------

  /** What an event says: a start adds or replaces a process, an exit removes it, and nothing else changes. */
  ghost predicate Records(event: Event, before: WatcherState, after: WatcherState) {
    && after.processes == (
        if event.Exec? && event.info.Some? then before.processes[event.pid := event.info.value]
        else if event.Exit? then before.processes - {event.pid}
        else before.processes)
    && (forall pid :: pid in after.games <==>
        event == GamemodeStart(pid) || (pid in before.games && event != GamemodeEnd(pid)))
  }

  lemma HandledRecords(s: WatcherState, event: Event)
    ensures Records(event, s, Handled(s, event))
  {}

  predicate AboutProcess(event: Event, pid: int) {
    event == Exit(pid) || (event.Exec? && event.pid == pid && event.info.Some?)
  }

  predicate AboutGame(event: Event, pid: int) {
    event == GamemodeStart(pid) || event == GamemodeEnd(pid)
  }

  /** Event `k` is the last one about the process. */
  ghost predicate LastAboutProcess(events: seq<Event>, pid: int, k: nat) {
    k < |events| && AboutProcess(events[k], pid) && forall j :: k < j < |events| ==> !AboutProcess(events[j], pid)
  }

  ghost predicate LastAboutGame(events: seq<Event>, pid: int, k: nat) {
    k < |events| && AboutGame(events[k], pid) && forall j :: k < j < |events| ==> !AboutGame(events[j], pid)
  }

  /** The last event about the process decides, and without any the table it started from. */
  ghost predicate Decided(s: WatcherState, events: seq<Event>, pid: int, f: WatcherState) {
    && (forall k: nat :: LastAboutProcess(events, pid, k) ==>
          if events[k].Exec? then pid in f.processes && f.processes[pid] == events[k].info.value
          else pid !in f.processes)
    && ((forall k :: 0 <= k < |events| ==> !AboutProcess(events[k], pid)) ==>
          if pid in s.processes then pid in f.processes && f.processes[pid] == s.processes[pid]
          else pid !in f.processes)
  }

  lemma OneMoreDecides(s: WatcherState, events: seq<Event>, pid: int, before: WatcherState, after: WatcherState)
    requires events != [] && Decided(s, events[..|events| - 1], pid, before)
    requires Records(events[|events| - 1], before, after)
    ensures Decided(s, events, pid, after)
  {
    var last := |events| - 1;
    var rest := events[..last];
    if AboutProcess(events[last], pid) {
      forall k: nat | LastAboutProcess(events, pid, k) ensures k == last {}
    } else {
      forall k: nat | LastAboutProcess(events, pid, k) ensures LastAboutProcess(rest, pid, k) && rest[k] == events[k] {}
      assert pid in after.processes <==> pid in before.processes;
      assert pid in before.processes ==> after.processes[pid] == before.processes[pid];
      assert (forall k :: 0 <= k < |events| ==> !AboutProcess(events[k], pid)) ==>
        forall k :: 0 <= k < |rest| ==> !AboutProcess(rest[k], pid) by {
        assert forall k :: 0 <= k < |rest| ==> rest[k] == events[k];
      }
      hide LastAboutProcess, AboutProcess, Records;
    }
  }

  /**
    After any events the table holds exactly the processes whose last event is a start that could be
    read, with what was read then, and those it held before and that no event is about.
   */
  lemma {:induction false} TableHolds(s: WatcherState, events: seq<Event>, pid: int)
    ensures Decided(s, events, pid, HandledAll(s, events))
  {
    if events != [] {
      var rest, last := events[..|events| - 1], events[|events| - 1];
      TableHolds(s, rest, pid);
      HandledRecords(HandledAll(s, rest), last);
      hide Decided, Records, Handled;
      OneMoreDecides(s, events, pid, HandledAll(s, rest), HandledAll(s, events));
    }
  }

  /** The same for the processes that gamemode is active for. */
  lemma {:induction false} GamesHold(s: WatcherState, events: seq<Event>, pid: int)
    ensures var games := HandledAll(s, events).games;
      && (forall k: nat :: LastAboutGame(events, pid, k) ==> (pid in games <==> events[k].GamemodeStart?))
      && ((forall k :: 0 <= k < |events| ==> !AboutGame(events[k], pid)) ==> (pid in games <==> pid in s.games))
  {
    if events != [] {
      var last := |events| - 1;
      GamesHold(s, events[..last], pid);
      HandledRecords(HandledAll(s, events[..last]), events[last]);
      hide Handled;
      forall k: nat | LastAboutGame(events, pid, k) && k < last ensures LastAboutGame(events[..last], pid, k) {}
    }
  }

  /** The pid is indexed under the name. */
  predicate Lists(s: WatcherState, name: string, pid: int) {
    name in s.names && pid in s.names[name]
  }

  /**
    From an empty table, whatever starts and exits, a pid is indexed under a name exactly when the
    last event about it is a start of a process of that name.
   */
  lemma {:induction false} LookupAgrees(events: seq<Event>, name: string, pid: int)
    ensures var s := HandledAll(EMPTY, events);
      && (Lists(s, name, pid) <==> pid in s.processes && s.processes[pid].name == name)
      && (forall k: nat :: LastAboutProcess(events, pid, k) ==>
            (Lists(s, name, pid) <==> events[k].Exec? && events[k].info.value.name == name))
      && ((forall k :: 0 <= k < |events| ==> !AboutProcess(events[k], pid)) ==> !Lists(s, name, pid))
  {
    EventsKeepIndexed(EMPTY, events);
    IndexedNames(HandledAll(EMPTY, events), name);
    TableHolds(EMPTY, events, pid);
  }
}
