/**
  Automatic profile switching: the watcher that keeps the current profile equal to the first one whose
  rule matches, together with the requests and edits that run beside it.

  Each step is what the program does between two points where it may be suspended. `lock` is the
  watcher that holds the global watcher lock, `tx` the one whose sender the daemon stores. A command
  counts as queued from when its sender is granted a place in the queue.
 */
module ProfileWatcher {
  import opened Wrappers
  import opened ProcessIndex
  import opened ProfileRules
  import Config

  /** Settings of GPUs play no part here. */
  type Profiles = seq<Profile<Config.Gpus<int>>>

  const CAPACITY := 5
  const GAMEMODE_DAEMON := "gamemoded"

  datatype Command = Stop | Update

  /** `Evaluate` to `Write` are the parts of an update, `Head` is the head of the outer loop. */
  datatype Phase =
    | Waiting | Loading
    | Evaluate | Compare(chosen: Option<string>) | Check(chosen: Option<string>) | Write(chosen: Option<string>)
    | Head | Debounce
    | Stuck(target: nat) | Leaving | Gone

  datatype Watcher = Watcher(queue: seq<Command>, phase: Phase, reload: bool)

  const NEW_WATCHER := Watcher([], Waiting, false)

  datatype Goal = Automatic | Manual(name: Option<string>)

  /** A request to set the profile, from when it has taken the stored sender. */
  datatype Request = Stopping(target: Option<nat>, goal: Goal) | Ready(goal: Goal) | Writing(name: Option<string>)

  /**
    `edits` counts edits that changed the profiles and have not looked at `tx` yet, `deletes` the
    deletions that unset the current profile and have not removed it yet; `updates` holds the
    watchers to which an `Update` is being sent.
   */
  datatype State = State(
    profiles: Profiles,
    current: Option<string>,
    table: Option<WatcherState>,
    lock: Option<nat>,
    tx: Option<nat>,
    watchers: map<nat, Watcher>,
    requests: map<nat, Request>,
    updates: multiset<nat>,
    edits: nat,
    deletes: nat)

  datatype Action =
    | Acquire(w: nat)
    | Load(w: nat, events: seq<Event>)
    | DoEvaluate(w: nat)
    | DoCompare(w: nat)
    | DoCheck(w: nat)
    | DoWrite(w: nat)
    | Receive(w: nat)
    | Observe(w: nat, event: Event)
    | DebounceEnds(w: nat)
    | Quiet(w: nat)
    | Reload(w: nat, spawned: nat)
    | Unstick(w: nat, spawned: nat)
    | Release(w: nat)
    | Begin(r: nat, goal: Goal)
    | SendStop(r: nat)
    | Start(r: nat, spawned: nat)
    | Choose(r: nat)
    | WriteChoice(r: nat)
    | Change(after: Profiles)
    | Unset
    | Remove(after: Profiles)
    | Notify
    | SendUpdate(to: nat)
    | ChangeUnsaved(after: Profiles)
    | RemoveUnsaved(after: Profiles)

  predicate Alive(s: State, w: nat) {
    w in s.watchers && !s.watchers[w].phase.Gone?
  }

  /** Sending blocks while the queue is full; once the watcher is gone it fails at once. */
  predicate Full(s: State, w: nat) {
    Alive(s, w) && |s.watchers[w].queue| >= CAPACITY
  }

  predicate NamedOrNone(profiles: Profiles, name: Option<string>) {
    name.None? || Named(profiles, name.value)
  }

  /** The watcher whose action this is. */
  function Actor(a: Action): Option<nat> {
    match a
    case Acquire(w) => Some(w) case Load(w, _) => Some(w) case DoEvaluate(w) => Some(w) case DoCompare(w) => Some(w)
    case DoCheck(w) => Some(w) case DoWrite(w) => Some(w) case Receive(w) => Some(w) case Observe(w, _) => Some(w)
    case DebounceEnds(w) => Some(w) case Quiet(w) => Some(w) case Reload(w, _) => Some(w) case Unstick(w, _) => Some(w)
    case Release(w) => Some(w)
    case _ => None
  }

  ghost predicate WatcherEnabled(s: State, a: Action, me: Watcher) {
    match a
    case Acquire(_) => me.phase.Waiting? && s.lock.None?
    case Load(_, _) => me.phase.Loading?
    case DoEvaluate(_) => me.phase.Evaluate?
    case DoCompare(_) => me.phase.Compare?
    case DoCheck(_) => me.phase.Check?
    case DoWrite(_) => me.phase.Write?
    case Receive(_) => me.phase.Head? && !me.reload && me.queue != []
    case Observe(_, _) => (me.phase.Head? && !me.reload) || me.phase.Debounce?
    case DebounceEnds(_) => me.phase.Debounce?
    case Quiet(_) => me.phase.Head? && !me.reload
    case Reload(_, spawned) => me.phase.Head? && me.reload && spawned !in s.watchers
    case Unstick(_, spawned) => me.phase.Stuck? && !Full(s, me.phase.target) && spawned !in s.watchers
    case Release(_) => me.phase.Leaving?
    case _ => true
  }

  predicate StopCanBeSent(s: State, r: nat) {
    && r in s.requests && s.requests[r].Stopping?
    && (s.requests[r].target.Some? ==> !Full(s, s.requests[r].target.value))
  }

  ghost predicate Enabled(s: State, a: Action) {
    && (Actor(a).Some? ==> Actor(a).value in s.watchers && WatcherEnabled(s, a, s.watchers[Actor(a).value]))
    && match a
      case Begin(r, _) => r !in s.requests
      case SendStop(r) => StopCanBeSent(s, r)
      case Start(r, spawned) => r in s.requests && s.requests[r] == Ready(Automatic) && spawned !in s.watchers
      case Choose(r) => r in s.requests && s.requests[r].Ready? && s.requests[r].goal.Manual?
      case WriteChoice(r) => r in s.requests && s.requests[r].Writing?
      case Remove(_) => s.deletes > 0
      case RemoveUnsaved(_) => s.deletes > 0
      case Notify => s.edits > 0
      case SendUpdate(to) => to in s.updates && !Full(s, to)
      case _ => true
  }

  // ---------- What a step does to each part of the state ----------

  /** Evaluates the rules through the index of the table; no profile when there is no table. */
  function Evaluated(table: Option<WatcherState>, profiles: Profiles): Option<string> {
    if table.None? || profiles == [] then None
    else if profiles[0].rule.Some? && IndexedMatches(table.value, profiles[0].rule.value) then Some(profiles[0].name)
    else Evaluated(table, profiles[1..])
  }

  /** A restart sends Stop to the stored watcher, and waits for ever if that one's queue is full. */
  predicate GetsStuck(s: State, a: Action) {
    a.Reload? && s.tx.Some? && Full(s, s.tx.value)
  }

  predicate Restarts(s: State, a: Action) {
    (a.Reload? && !GetsStuck(s, a)) || a.Unstick?
  }

  function NextPhase(s: State, a: Action): Phase
    requires Enabled(s, a) && Actor(a).Some?
  {
    var me := s.watchers[Actor(a).value];
    match a
    case Acquire(_) => Loading
    case Load(_, _) => Evaluate
    case DoEvaluate(_) => Compare(Evaluated(s.table, s.profiles))
    case DoCompare(_) => if s.current == me.phase.chosen then Head else Check(me.phase.chosen)
    case DoCheck(_) => if NamedOrNone(s.profiles, me.phase.chosen) then Write(me.phase.chosen) else Head
    case DoWrite(_) => Head
    case Receive(_) => if me.queue[0].Stop? then Leaving else Evaluate
    case Observe(_, _) => Debounce
    case DebounceEnds(_) => Evaluate
    case Quiet(_) => Head
    case Reload(_, _) => if GetsStuck(s, a) then Stuck(s.tx.value) else Leaving
    case Unstick(_, _) => Leaving
    case Release(_) => Gone
  }

  /** The message that a step delivers to watcher `w`. */
  function Delivered(s: State, a: Action, w: nat): seq<Command>
    requires Enabled(s, a) && w in s.watchers
  {
    if s.watchers[w].phase.Gone? then []
    else if a.Reload? && s.tx == Some(w) && !GetsStuck(s, a) then [Stop]
    else if a.Unstick? && s.watchers[a.w].phase.target == w then [Stop]
    else if a.SendStop? && s.requests[a.r].target == Some(w) then [Stop]
    else if a == SendUpdate(w) then [Update]
    else []
  }

  predicate DaemonStarted(event: Event) {
    event.Exec? && event.info.Some? && event.info.value.name == GAMEMODE_DAEMON
  }

  function NextWatcher(s: State, a: Action, w: nat): Watcher
    requires Enabled(s, a) && w in s.watchers
  {
    var me := s.watchers[w];
    Watcher(
      if a == Receive(w) then me.queue[1..] else me.queue + Delivered(s, a, w),
      if Actor(a) == Some(w) then NextPhase(s, a) else me.phase,
      me.reload || a == Quiet(w) || (a.Observe? && a.w == w && s.table.Some? && DaemonStarted(a.event)))
  }

  function NextWatchers(s: State, a: Action): map<nat, Watcher>
    requires Enabled(s, a)
  {
    var watchers := map w | w in s.watchers :: NextWatcher(s, a, w);
    if Restarts(s, a) || a.Start? then watchers[a.spawned := NEW_WATCHER] else watchers
  }

  function NextTable(s: State, a: Action): Option<WatcherState>
    requires Enabled(s, a)
  {
    if a.Load? then Some(HandledAll(EMPTY, a.events))
    else if a.Observe? then (if s.table.Some? then Some(Handled(s.table.value, a.event)) else None)
    else if Restarts(s, a) || (a.Receive? && s.watchers[a.w].queue[0].Stop?) then None
    else s.table
  }

  function NextCurrent(s: State, a: Action): Option<string>
    requires Enabled(s, a)
  {
    match a
    case DoWrite(w) => s.watchers[w].phase.chosen
    case WriteChoice(r) => s.requests[r].name
    case Unset => None
    case _ => s.current
  }

  function NextProfiles(s: State, a: Action): Profiles {
    if a.Change? || a.Remove? || a.ChangeUnsaved? || a.RemoveUnsaved? then a.after else s.profiles
  }

  function NextLock(s: State, a: Action): Option<nat> {
    if a.Acquire? then Some(a.w) else if a.Release? then None else s.lock
  }

  function NextTx(s: State, a: Action): Option<nat> {
    if Restarts(s, a) || a.Start? then Some(a.spawned) else if a.Begin? || a.Reload? then None else s.tx
  }

  function NextRequests(s: State, a: Action): map<nat, Request>
    requires Enabled(s, a)
  {
    match a
    case Begin(r, goal) => s.requests[r := Stopping(s.tx, goal)]
    case SendStop(r) => s.requests[r := Ready(s.requests[r].goal)]
    case Start(r, _) => s.requests - {r}
    case Choose(r) =>
      var name := s.requests[r].goal.name;
      if NamedOrNone(s.profiles, name) then s.requests[r := Writing(name)] else s.requests - {r}
    case WriteChoice(r) => s.requests - {r}
    case _ => s.requests
  }

  function NextUpdates(s: State, a: Action): multiset<nat> {
    if a.Notify? && s.tx.Some? then s.updates + multiset{s.tx.value}
    else if a.SendUpdate? then s.updates - multiset{a.to}
    else s.updates
  }

  function NextEdits(s: State, a: Action): nat
    requires Enabled(s, a)
  {
    if a.Change? || a.Remove? then s.edits + 1 else if a.Notify? then s.edits - 1 else s.edits
  }

  function NextDeletes(s: State, a: Action): nat
    requires Enabled(s, a)
  {
    if a.Unset? then s.deletes + 1 else if a.Remove? || a.RemoveUnsaved? then s.deletes - 1 else s.deletes
  }

  function Next(s: State, a: Action): State
    requires Enabled(s, a)
  {
    State(NextProfiles(s, a), NextCurrent(s, a), NextTable(s, a), NextLock(s, a), NextTx(s, a), NextWatchers(s, a),
          NextRequests(s, a), NextUpdates(s, a), NextEdits(s, a), NextDeletes(s, a))
  }

  ghost predicate Initial(s: State) {
    s.table.None? && s.lock.None? && s.tx.None? && s.watchers == map[] && s.requests == map[] && s.updates == multiset{}
  }

  function GoalOf(request: Request): Goal {
    if request.Writing? then Manual(request.name) else request.goal
  }

  /** Edits are saved, overlapping requests are manual, and watchers do not restart in the middle of one. */
  ghost predicate Regular(s: State, a: Action) {
    match a
    case ChangeUnsaved(_) => false
    case RemoveUnsaved(_) => false
    case Begin(_, goal) => forall r :: r in s.requests ==> goal.Manual? && GoalOf(s.requests[r]).Manual?
    case Reload(_, _) => forall r :: r !in s.requests
    case _ => true
  }

  /** A run of the system: regular actions that can be taken one after the other. */
  ghost predicate Path(s: State, actions: seq<Action>)
    decreases |actions|
  {
    actions == [] || (Enabled(s, actions[0]) && Regular(s, actions[0]) && Path(Next(s, actions[0]), actions[1..]))
  }

  /** The state in which a run ends. */
  ghost function End(s: State, actions: seq<Action>): State
    requires Path(s, actions)
    decreases |actions|
  {
    if actions == [] then s else End(Next(s, actions[0]), actions[1..])
  }

  // ---------- What every step keeps ----------

  predicate Ending(phase: Phase) {
    phase.Leaving? || phase.Gone? || phase.Stuck?
  }

  predicate Holding(phase: Phase) {
    !phase.Waiting? && !phase.Gone?
  }

  /** A command waits for the watcher, or is on its way to it. */
  ghost predicate Notified(s: State, w: nat)
    requires w in s.watchers
  {
    || s.watchers[w].queue != []
    || w in s.updates
    || ToBeStopped(s, w)
    || (s.tx == Some(w) && (s.edits > 0 || s.deletes > 0))
  }

  predicate Stops(request: Request, w: nat) {
    request.Stopping? && request.target == Some(w)
  }

  ghost predicate ToBeStopped(s: State, w: nat) {
    exists r :: r in s.requests && Stops(s.requests[r], w)
  }

  /** Commands reach the watcher, unless it has been told to stop. */
  ghost predicate Led(s: State, w: nat)
    requires w in s.watchers
  {
    s.tx == Some(w) || Stop in s.watchers[w].queue || ToBeStopped(s, w)
  }

  predicate LockAgrees(s: State, w: nat)
    requires w in s.watchers
  {
    Holding(s.watchers[w].phase) <==> s.lock == Some(w)
  }

  /** A stuck watcher waits for room in a full queue that only it could empty. */
  predicate StuckInv(s: State, w: nat)
    requires w in s.watchers
  {
    var me := s.watchers[w];
    && |me.queue| <= CAPACITY
    && (me.phase.Waiting? ==> !me.reload)
    && (me.phase.Stuck? ==>
      Full(s, me.phase.target) && (me.phase.target == w || s.watchers[me.phase.target].phase.Waiting?))
  }

  ghost predicate TableInv(s: State, w: nat)
    requires w in s.watchers
  {
    var phase := s.watchers[w].phase;
    Holding(phase) && !phase.Loading? && !phase.Leaving? ==> s.table.Some? && Indexed(s.table.value)
  }

  /** A watcher about to take the lock, or holding it and neither restarting nor leaving, can be reached. */
  ghost predicate LedInv(s: State, w: nat)
    requires w in s.watchers
  {
    var phase := s.watchers[w].phase;
    Ending(phase) || Led(s, w)
    || (s.lock.Some? && s.lock.value in s.watchers && s.watchers[s.lock.value].phase == Stuck(w))
  }

  predicate RightProfile(s: State, chosen: Option<string>) {
    s.table.Some? && chosen == FirstMatch(s.table.value, s.profiles)
  }

  /** The update under way ends well: its choice is right, or it will be dropped and the current profile is. */
  predicate EndsWell(s: State, chosen: Option<string>) {
    RightProfile(s, chosen) || (!NamedOrNone(s.profiles, chosen) && RightProfile(s, s.current))
  }

  ghost predicate ProfileInv(s: State, w: nat)
    requires w in s.watchers
  {
    match s.watchers[w].phase
    case Compare(chosen) => EndsWell(s, chosen) || Notified(s, w)
    case Check(chosen) => EndsWell(s, chosen) || Notified(s, w)
    case Write(chosen) => RightProfile(s, chosen) || Notified(s, w)
    case Head => RightProfile(s, s.current) || Notified(s, w)
    case _ => true
  }

  /** While a request is in progress no sender is stored; requests that overlap are all manual. */
  ghost predicate RequestInv(s: State) {
    && (forall r :: r in s.requests ==> s.tx.None?)
    && (forall q, r :: q in s.requests && r in s.requests && q != r ==> GoalOf(s.requests[q]).Manual?)
  }

  /** Whatever refers to a watcher refers to one that was started. */
  ghost predicate RefInv(s: State) {
    && (s.lock.Some? ==> s.lock.value in s.watchers)
    && (s.tx.Some? ==> s.tx.value in s.watchers)
    && (forall w :: w in s.updates ==> w in s.watchers)
    && (forall r, w :: r in s.requests && Stops(s.requests[r], w) ==> w in s.watchers)
  }

  ghost predicate Inv(s: State) {
    && RequestInv(s) && RefInv(s)
    && forall w :: w in s.watchers ==>
      LockAgrees(s, w) && StuckInv(s, w) && TableInv(s, w) && LedInv(s, w) && ProfileInv(s, w)
  }

  lemma NextAt(s: State, a: Action, w: nat)
    requires Enabled(s, a)
    ensures w in s.watchers ==> w in Next(s, a).watchers && Next(s, a).watchers[w] == NextWatcher(s, a, w)
    ensures w !in s.watchers && w in Next(s, a).watchers ==>
      (Restarts(s, a) || a.Start?) && a.spawned == w && Next(s, a).watchers[w] == NEW_WATCHER
  {
    hide NextPhase, NextTable, NextCurrent, NextRequests, NextUpdates, NextEdits, NextDeletes, NextWatcher;
    hide GetsStuck, Full;
  }

  lemma {:induction false} EvaluatedIs(s: WatcherState, profiles: Profiles)
    requires Indexed(s)
    ensures Evaluated(Some(s), profiles) == FirstMatch(s, profiles)
  {
    if profiles != [] {
      if profiles[0].rule.Some? { LookupMatchesScan(s, profiles[0].rule.value); }
      EvaluatedIs(s, profiles[1..]);
    }
  }

  lemma InvAt(s: State, w: nat)
    requires Inv(s) && w in s.watchers
    ensures LockAgrees(s, w) && StuckInv(s, w) && TableInv(s, w) && LedInv(s, w) && ProfileInv(s, w)
  {}

  lemma FrameNext(s: State, a: Action)
    requires Enabled(s, a)
    ensures var f := Next(s, a);
      && f.profiles == NextProfiles(s, a) && f.current == NextCurrent(s, a) && f.table == NextTable(s, a)
      && f.lock == NextLock(s, a) && f.tx == NextTx(s, a) && f.requests == NextRequests(s, a)
      && f.updates == NextUpdates(s, a) && f.edits == NextEdits(s, a) && f.deletes == NextDeletes(s, a)
  {}

  lemma StepKeepsLock(s: State, a: Action, w: nat)
    requires Inv(s) && Enabled(s, a) && w in Next(s, a).watchers
    ensures LockAgrees(Next(s, a), w)
  {
    hide Next, NextTable, NextCurrent, NextRequests, NextUpdates, NextProfiles, NextEdits, NextDeletes, Delivered;
    NextAt(s, a, w);
    FrameNext(s, a);
    if w in s.watchers {
      InvAt(s, w);
      if Actor(a) == Some(w) {
        hide Inv, Evaluated, StuckInv, TableInv, LedInv, ProfileInv, Full, NamedOrNone;
      } else {
        if Actor(a).Some? { InvAt(s, Actor(a).value); }
        hide Inv, NextPhase, StuckInv, TableInv, LedInv, ProfileInv, Full, NamedOrNone;
      }
    } else {
      hide WatcherEnabled, NextPhase, LedInv, ProfileInv, TableInv, StuckInv, Full;
    }
  }

  /** Only the watcher that holds the lock acts, except that one that waits may take a free lock. */
  lemma ActorHoldsLock(s: State, a: Action, w: nat)
    requires Inv(s) && Enabled(s, a) && w in s.watchers
    ensures Actor(a) == Some(w) ==> if a.Acquire? then s.lock.None? else s.lock == Some(w)
  {
    assert LockAgrees(s, w);
  }

  /** A watcher that got stuck in a restart stays stuck. */
  lemma NeverUnstuck(s: State, a: Action)
    requires Inv(s) && Enabled(s, a)
    ensures !a.Unstick?
  {
    assert a.Unstick? ==> StuckInv(s, a.w);
  }

  /** Nothing but the watcher itself takes commands out of its queue, and none enters a full one. */
  lemma QueueNext(s: State, a: Action, w: nat)
    requires Inv(s) && Enabled(s, a) && w in s.watchers
    ensures |NextWatcher(s, a, w).queue| <= CAPACITY
    ensures Actor(a) != Some(w) ==> s.watchers[w].queue <= NextWatcher(s, a, w).queue
  {
    hide NextPhase, Inv, LockAgrees, TableInv, LedInv, ProfileInv, NamedOrNone, DaemonStarted;
    NeverUnstuck(s, a);
    InvAt(s, w);
    if Delivered(s, a, w) != [] {
      assert !Full(s, w);
    }
    hide WatcherEnabled, Enabled, Delivered;
  }

  /** Only at the head of its loop, or beyond, does a watcher learn that it has to restart. */
  lemma StaysFresh(s: State, a: Action, w: nat)
    requires Inv(s) && Enabled(s, a) && w in s.watchers
    ensures NextWatcher(s, a, w).phase.Waiting? ==> !NextWatcher(s, a, w).reload
  {
    InvAt(s, w);
    hide Inv, Delivered, Evaluated, LockAgrees, TableInv, LedInv, ProfileInv, NamedOrNone, Full;
  }

  lemma StepKeepsStuck(s: State, a: Action, w: nat)
    requires Inv(s) && Enabled(s, a) && w in Next(s, a).watchers
    ensures StuckInv(Next(s, a), w)
  {
    hide Next, NextPhase, Delivered;
    NextAt(s, a, w);
    if w in s.watchers {
      QueueNext(s, a, w);
      StaysFresh(s, a, w);
      if NextWatcher(s, a, w).phase.Stuck? {
        var x := NextWatcher(s, a, w).phase.target;
        BecomesStuck(s, a, w);
        NextAt(s, a, x);
        QueueNext(s, a, x);
        ActorHoldsLock(s, a, x);
        hide Inv, WatcherEnabled, Enabled;
      }
      hide Inv, WatcherEnabled, Enabled;
    }
  }

  lemma BecomesStuck(s: State, a: Action, w: nat)
    requires Inv(s) && Enabled(s, a) && w in s.watchers && NextWatcher(s, a, w).phase.Stuck?
    ensures var x := NextWatcher(s, a, w).phase.target;
      && Full(s, x) && (x == w || s.watchers[x].phase.Waiting?) && s.lock == Some(w)
      && (Actor(a).Some? ==> a.Reload? && a.w == w)
  {
    NeverUnstuck(s, a);
    InvAt(s, w);
    if Actor(a).Some? { InvAt(s, Actor(a).value); }
    if s.tx.Some? && s.tx.value in s.watchers { InvAt(s, s.tx.value); }
    hide Inv, Evaluated, Delivered, TableInv, LedInv, ProfileInv, NamedOrNone;
  }

  lemma EmptyIndexed()
    ensures Indexed(EMPTY)
  {}

  lemma HandledKeepsIndexed(s: WatcherState, event: Event)
    requires Indexed(s)
    ensures Indexed(Handled(s, event))
  {
    assert [event][..0] == [];
    assert HandledAll(s, [event]) == Handled(s, event);
    EventsKeepIndexed(s, [event]);
  }

  /** The table stays indexed; only the watcher that holds the lock changes it. */
  lemma TableNext(s: State, a: Action)
    requires Inv(s) && Enabled(s, a)
    ensures a.Load? || (s.table.Some? && Indexed(s.table.value) && NextTable(s, a).Some?) ==>
      NextTable(s, a).Some? && Indexed(NextTable(s, a).value)
    ensures Actor(a).None? ==> NextTable(s, a) == s.table
  {
    hide Handled, HandledAll, Indexed, WatcherEnabled;
    NeverUnstuck(s, a);
    match a {
      case Load(_, events) => EmptyIndexed(); EventsKeepIndexed(EMPTY, events);
      case Observe(_, event) =>
        if s.table.Some? && Indexed(s.table.value) { HandledKeepsIndexed(s.table.value, event); }
      case _ =>
    }
    hide Inv;
  }

  lemma StepKeepsTable(s: State, a: Action, w: nat)
    requires Inv(s) && Enabled(s, a) && w in Next(s, a).watchers
    ensures TableInv(Next(s, a), w)
  {
    hide Next, NextCurrent, NextRequests, NextUpdates, NextProfiles, NextEdits, NextDeletes, Handled;
    hide HandledAll, Indexed;
    NextAt(s, a, w);
    FrameNext(s, a);
    TableNext(s, a);
    if w in s.watchers {
      InvAt(s, w);
      if Actor(a).Some? { InvAt(s, Actor(a).value); }
    }
    hide Inv, Evaluated, Delivered, StuckInv, LedInv, ProfileInv, Full, NamedOrNone;
  }

  lemma OverlapsStayManual(s: State, a: Action)
    requires RequestInv(s) && Enabled(s, a) && Regular(s, a)
    ensures var f := NextRequests(s, a); forall q, r :: q in f && r in f && q != r ==> GoalOf(f[q]).Manual?
  {
    hide WatcherEnabled, Full, NamedOrNone, Actor;
  }

  lemma NoSenderDuringRequests(s: State, a: Action)
    requires RequestInv(s) && Enabled(s, a) && Regular(s, a) && !a.Unstick?
    ensures forall r :: r in NextRequests(s, a) ==> NextTx(s, a).None?
  {
    hide WatcherEnabled, Full, NamedOrNone, Actor;
  }

  lemma StepKeepsRequests(s: State, a: Action)
    requires Inv(s) && Enabled(s, a) && Regular(s, a)
    ensures RequestInv(Next(s, a))
  {
    NeverUnstuck(s, a);
    OverlapsStayManual(s, a);
    NoSenderDuringRequests(s, a);
    FrameNext(s, a);
    hide Inv, Next, Enabled, Regular, NextRequests, NextTx;
  }

  lemma WatchersStay(s: State, a: Action)
    requires Enabled(s, a)
    ensures forall w :: w in s.watchers ==> w in Next(s, a).watchers
    ensures Restarts(s, a) || a.Start? ==> a.spawned in Next(s, a).watchers
  {
    forall w | w in s.watchers ensures w in Next(s, a).watchers { NextAt(s, a, w); }
    hide NextWatcher, NextPhase, NextTable, NextCurrent, NextProfiles, NextEdits, NextDeletes, NextRequests;
  }

  lemma StepKeepsTargets(s: State, a: Action)
    requires RefInv(s) && Enabled(s, a)
    ensures forall r, w :: r in Next(s, a).requests && Stops(Next(s, a).requests[r], w) ==> w in s.watchers
  {
    hide Next, NextTable, NextCurrent, NextProfiles, NextEdits, NextDeletes, NextUpdates, WatcherEnabled;
    hide NextTx, NextLock;
    FrameNext(s, a);
    hide Full, NamedOrNone, Actor;
  }

  lemma StepKeepsSenders(s: State, a: Action)
    requires RefInv(s) && Enabled(s, a)
    ensures Next(s, a).lock.Some? ==> Next(s, a).lock.value in s.watchers
    ensures Next(s, a).tx.Some? ==>
      Next(s, a).tx.value in s.watchers || ((Restarts(s, a) || a.Start?) && Next(s, a).tx.value == a.spawned)
    ensures forall w :: w in Next(s, a).updates ==> w in s.watchers
  {
    assert a.Acquire? ==> a.w in s.watchers;
    hide Next, NextTable, NextCurrent, NextProfiles, NextEdits, NextDeletes, NextRequests;
    FrameNext(s, a);
    hide Full, NamedOrNone, Enabled, Stops;
  }

  lemma StepKeepsRefs(s: State, a: Action)
    requires Inv(s) && Enabled(s, a)
    ensures RefInv(Next(s, a))
  {
    WatchersStay(s, a);
    StepKeepsTargets(s, a);
    StepKeepsSenders(s, a);
    hide Next, Enabled, Restarts, RequestInv, Stops, LockAgrees, StuckInv, TableInv, LedInv, ProfileInv;
  }

  /** A Stop command stays until it is received. */
  lemma StopStays(s: State, a: Action, w: nat)
    requires Inv(s) && Enabled(s, a) && w in s.watchers && Stop in s.watchers[w].queue
    ensures Stop in NextWatcher(s, a, w).queue || NextWatcher(s, a, w).phase.Leaving?
  {
    var queue := s.watchers[w].queue;
    if a == Receive(w) {
      assert queue == [queue[0]] + queue[1..];
    } else {
      assert queue <= NextWatcher(s, a, w).queue;
    }
    hide Delivered;
  }

  /** A request stops the watcher whose sender it took, sooner or later. */
  lemma StopOnItsWay(s: State, a: Action, w: nat)
    requires Enabled(s, a) && w in s.watchers && !s.watchers[w].phase.Gone?
    ensures ToBeStopped(s, w) ==> ToBeStopped(Next(s, a), w) || Stop in NextWatcher(s, a, w).queue
    ensures a.Begin? && s.tx == Some(w) ==> ToBeStopped(Next(s, a), w)
  {
    hide Next, NextPhase, NextTable, NextProfiles, NextCurrent, NextUpdates, NextEdits, NextDeletes, Full;
    FrameNext(s, a);
    var f := Next(s, a);
    if ToBeStopped(s, w) {
      var r :| r in s.requests && Stops(s.requests[r], w);
      if a == SendStop(r) {
        assert Delivered(s, a, w) == [Stop];
      } else {
        assert r in f.requests && Stops(f.requests[r], w);
      }
    }
    if a.Begin? && s.tx == Some(w) {
      assert Stops(f.requests[a.r], w);
    }
  }

  /** Whoever takes the stored sender stops its watcher, which is otherwise led by it for good. */
  lemma LedStays(s: State, a: Action, w: nat)
    requires Inv(s) && Enabled(s, a) && Regular(s, a) && w in s.watchers && Led(s, w)
    requires !NextWatcher(s, a, w).phase.Leaving? && !s.watchers[w].phase.Gone?
    ensures Next(s, a).tx == Some(w) || Stop in NextWatcher(s, a, w).queue || ToBeStopped(Next(s, a), w)
      || (GetsStuck(s, a) && s.tx == Some(w))
  {
    if Stop in s.watchers[w].queue { StopStays(s, a, w); }
    FrameNext(s, a);
    NeverUnstuck(s, a);
    StopOnItsWay(s, a, w);
    hide ToBeStopped;
    hide Next, NextPhase, Inv, WatcherEnabled, NextUpdates, NextEdits, NextDeletes, NextTable, NextProfiles;
    hide NextCurrent, Full;
  }

  lemma StuckLeads(s: State, a: Action, w: nat, u: nat)
    requires Inv(s) && Enabled(s, a) && u in s.watchers
    requires (s.lock == Some(u) && s.watchers[u].phase == Stuck(w)) || (GetsStuck(s, a) && s.tx == Some(w) && a.w == u)
    ensures Next(s, a).lock == Some(u) && NextWatcher(s, a, u).phase == Stuck(w)
  {
    hide Next, NextTable, NextCurrent, NextRequests, NextUpdates, NextProfiles, NextEdits, NextDeletes, Delivered;
    FrameNext(s, a);
    NeverUnstuck(s, a);
    InvAt(s, u);
    if Actor(a).Some? { InvAt(s, Actor(a).value); }
    hide Inv, Evaluated, StuckInv, TableInv, LedInv, ProfileInv, NamedOrNone, Full, ToBeStopped, Notified;
  }

  lemma StepKeepsLed(s: State, a: Action, w: nat)
    requires Inv(s) && Enabled(s, a) && Regular(s, a) && w in Next(s, a).watchers
    ensures LedInv(Next(s, a), w)
  {
    NextAt(s, a, w);
    if w !in s.watchers {
      NeverUnstuck(s, a);
      assert Next(s, a).tx == Some(w);
    } else if !Ending(NextWatcher(s, a, w).phase) {
      assert LedInv(s, w);
      NotLeft(s, a, w);
      if Led(s, w) { LedStays(s, a, w); }
      if s.lock.Some? && s.watchers[s.lock.value].phase == Stuck(w) {
        StuckLeads(s, a, w, s.lock.value);
        NextAt(s, a, s.lock.value);
      } else if GetsStuck(s, a) && s.tx == Some(w) {
        StuckLeads(s, a, w, a.w);
        NextAt(s, a, a.w);
      }
      hide Next, Inv, NextWatcher, GetsStuck, Enabled, ToBeStopped;
    }
  }

  lemma NotLeft(s: State, a: Action, w: nat)
    requires Inv(s) && Enabled(s, a) && w in s.watchers
    requires var phase := NextWatcher(s, a, w).phase; !Ending(phase)
    ensures var phase := s.watchers[w].phase; !Ending(phase)
  {
    NeverUnstuck(s, a);
    hide Delivered, Evaluated;
  }

  /** What is on its way to a watcher arrives, unless the watcher itself takes it. */
  lemma NotifiedStays(s: State, a: Action, w: nat)
    requires Inv(s) && Enabled(s, a) && Regular(s, a) && w in s.watchers && Notified(s, w)
    requires Holding(s.watchers[w].phase) && a != Receive(w) && !NextWatcher(s, a, w).phase.Leaving?
    requires !GetsStuck(s, a)
    ensures w in Next(s, a).watchers && Notified(Next(s, a), w)
  {
    hide Next, NextPhase, NextTable, NextProfiles, NextCurrent, NextLock;
    NextAt(s, a, w);
    FrameNext(s, a);
    NeverUnstuck(s, a);
    StopOnItsWay(s, a, w);
    assert s.watchers[w].queue <= NextWatcher(s, a, w).queue;
    hide Inv, ToBeStopped, WatcherEnabled, Full, NamedOrNone;
  }

  /** Whoever else changes the profiles or the current one does so when the watcher can still be reached. */
  lemma OthersNotify(s: State, a: Action, w: nat)
    requires Inv(s) && Enabled(s, a) && Regular(s, a) && w in s.watchers
    requires Holding(s.watchers[w].phase) && !Ending(s.watchers[w].phase)
    requires a.Change? || a.Remove? || a.Unset? || a.WriteChoice?
    ensures w in Next(s, a).watchers && Notified(Next(s, a), w)
  {
    hide Next, NextPhase, NextTable, NextProfiles, NextCurrent;
    NextAt(s, a, w);
    FrameNext(s, a);
    InvAt(s, w);
    StopOnItsWay(s, a, w);
    hide Inv, ToBeStopped, WatcherEnabled, Full, NamedOrNone, TableInv, StuckInv, ProfileInv;
  }

  lemma StepKeepsProfile(s: State, a: Action, w: nat)
    requires Inv(s) && Enabled(s, a) && Regular(s, a) && w in Next(s, a).watchers
    ensures ProfileInv(Next(s, a), w)
  {
    hide Next, NextTable, NextCurrent, NextUpdates, NextRequests, NextProfiles, NextEdits, NextDeletes, Notified;
    NextAt(s, a, w);
    if w in s.watchers && Holding(s.watchers[w].phase) && !Ending(s.watchers[w].phase) {
      hide NextWatcher, NextPhase, ProfileInv, Inv, Enabled;
      if Actor(a) == Some(w) {
        OwnStepKeepsProfile(s, a, w);
      } else {
        OtherStepKeepsProfile(s, a, w);
      }
    } else {
      hide Delivered, Evaluated, Inv, Full, RightProfile, NamedOrNone;
    }
  }

  lemma OwnStepKeepsProfile(s: State, a: Action, w: nat)
    requires Inv(s) && Enabled(s, a) && Regular(s, a) && w in s.watchers && Actor(a) == Some(w)
    ensures w in Next(s, a).watchers && ProfileInv(Next(s, a), w)
  {
    hide Next, NextUpdates, NextRequests, NextTx, NextEdits, NextDeletes, Handled, HandledAll, FirstMatch;
    hide Indexed, Notified, Evaluated;
    NextAt(s, a, w);
    FrameNext(s, a);
    InvAt(s, w);
    hide Delivered, Inv, Full, StuckInv, LedInv, LockAgrees;
    if a.DoEvaluate? {
      EvaluatedIs(s.table.value, s.profiles);
    } else if a.DoCompare? || a.DoCheck? || a.DoWrite? || a.Quiet? {
      if Notified(s, w) { NotifiedStays(s, a, w); }
      if s.table.Some? { FirstMatchNamed(s.table.value, s.profiles); }
    }
  }

  lemma NotNotifying(s: State, a: Action, w: nat)
    requires Inv(s) && Enabled(s, a) && w in s.watchers && Actor(a) != Some(w) && s.lock == Some(w)
    ensures !GetsStuck(s, a) && a != Receive(w)
    ensures NextWatcher(s, a, w).phase == s.watchers[w].phase
  {
    if Actor(a).Some? { InvAt(s, Actor(a).value); }
    hide Inv, NextPhase, Delivered;
  }

  lemma OtherStepKeepsProfile(s: State, a: Action, w: nat)
    requires Inv(s) && Enabled(s, a) && Regular(s, a) && w in s.watchers && Actor(a) != Some(w)
    requires Holding(s.watchers[w].phase)
    ensures w in Next(s, a).watchers && ProfileInv(Next(s, a), w)
  {
    hide Next, NextPhase, NextUpdates, NextRequests, NextTx, NextEdits, NextDeletes, Handled, HandledAll;
    hide FirstMatch, Notified;
    NextAt(s, a, w);
    FrameNext(s, a);
    InvAt(s, w);
    if Actor(a).Some? { InvAt(s, Actor(a).value); }
    if (a.Change? || a.Remove? || a.Unset? || a.WriteChoice?) && !Ending(s.watchers[w].phase) {
      OthersNotify(s, a, w);
    } else if Notified(s, w) && !s.watchers[w].phase.Leaving? {
      NotNotifying(s, a, w);
      NotifiedStays(s, a, w);
    }
    hide Inv, TableInv, StuckInv, LedInv, Full, NamedOrNone;
  }

  lemma StepKeepsInv(s: State, a: Action)
    requires Inv(s) && Enabled(s, a) && Regular(s, a)
    ensures Inv(Next(s, a))
  {
    StepKeepsRequests(s, a);
    StepKeepsRefs(s, a);
    forall w | w in Next(s, a).watchers
      ensures LockAgrees(Next(s, a), w) && StuckInv(Next(s, a), w) && TableInv(Next(s, a), w)
      ensures LedInv(Next(s, a), w) && ProfileInv(Next(s, a), w)
    {
      StepKeepsLock(s, a, w);
      StepKeepsStuck(s, a, w);
      StepKeepsTable(s, a, w);
      StepKeepsLed(s, a, w);
      StepKeepsProfile(s, a, w);
    }
    hide Next, Enabled, RequestInv, RefInv, LockAgrees, StuckInv, TableInv, LedInv, ProfileInv;
  }

  lemma {:induction false} InvAlways(s: State, actions: seq<Action>)
    requires Inv(s) && Path(s, actions)
    ensures Inv(End(s, actions))
    decreases |actions|
  {
    if actions != [] {
      StepKeepsInv(s, actions[0]);
      hide Inv, Next, Enabled, Regular;
      InvAlways(Next(s, actions[0]), actions[1..]);
    }
  }

  lemma InitialInv(s: State)
    requires Initial(s)
    ensures Inv(s)
  {}

  // ---------- Main results ----------

  /** What is promised of a watcher at the head of its loop. */
  ghost predicate UpToDate(s: State, w: nat)
    requires w in s.watchers
  {
    Notified(s, w) || RightProfile(s, s.current)
  }

  /**
    After every run, a watcher at the head of its loop finds the current profile to be the first one, in
    order, whose rule matches the processes, and thus an existing one, unless a command waits for it or
    is about to be sent to it.
   */
  lemma {:induction false} CurrentIsFirstMatch(start: State, actions: seq<Action>, w: nat)
    requires Initial(start) && Path(start, actions)
    requires w in End(start, actions).watchers && End(start, actions).watchers[w].phase.Head?
    ensures var s := End(start, actions);
      && s.table.Some? && Indexed(s.table.value)
      && (Notified(s, w) || s.current == FirstMatch(s.table.value, s.profiles))
      && (Notified(s, w) || NamedOrNone(s.profiles, s.current))
  {
    InitialInv(start);
    InvAlways(start, actions);
    var s := End(start, actions);
    InvAt(s, w);
    FirstMatchNamed(s.table.value, s.profiles);
    hide Indexed, Inv, FirstMatch;
  }

  /** At most one watcher works at a time, and only that one changes the profile by itself. */
  lemma {:induction false} OneWatcherWorks(start: State, actions: seq<Action>, w: nat, v: nat)
    requires Initial(start) && Path(start, actions)
    requires w in End(start, actions).watchers && Holding(End(start, actions).watchers[w].phase)
    requires v in End(start, actions).watchers && Holding(End(start, actions).watchers[v].phase)
    ensures w == v
  {
    InitialInv(start);
    InvAlways(start, actions);
    assert LockAgrees(End(start, actions), w) && LockAgrees(End(start, actions), v);
  }
}
