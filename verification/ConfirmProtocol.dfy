/**
  Applying a configuration change in two phases: it is written to the hardware at once, and saved only
  if it is confirmed before a timer runs out; otherwise the previous settings are applied again.

  The steps are the program's own: an edit checks the stored sender, reads the settings, applies the
  new ones and spawns a task; the task waits for its timer or its channel, acts, and clears the slot.
  Steps of different edits, tasks and requests may interleave in any order.
 */
module ConfirmProtocol {
  import opened Wrappers
  import opened ClocksConfig

  /** `rest` stands for all settings other than the clocks. */
  datatype GpuConfig = GpuConfig(clocks: ClocksConfiguration, rest: int)

  const DEFAULT_GPU := GpuConfig(DEFAULT, 0)

  datatype Answer = Confirm | Revert

  /** The one-shot channel of a change: sender stored or in use, an answer sent, or sender dropped. */
  datatype Channel = Open | Sent(answer: Answer) | Dropped

  datatype Phase = Waiting | Committing | Reverting | Finishing(saved: bool) | Done(saved: bool)

  datatype Task = Task(gpu: string, previous: GpuConfig, next: GpuConfig, channel: Channel, timerElapsed: bool,
      phase: Phase)

  /** An edit in progress: past the check for a pending change, then with its settings read. */
  datatype Edit = Checked(gpu: string) | Prepared(gpu: string, previous: GpuConfig, next: GpuConfig)

  datatype Effect = Saved(task: nat) | Reapplied(task: nat)

  /** `slot` is the task whose sender is stored; `effects` records what the tasks did. */
  datatype State = State(
    hardware: map<string, GpuConfig>,
    config: map<string, GpuConfig>,
    slot: Option<nat>,
    edits: map<nat, Edit>,
    tasks: map<nat, Task>,
    effects: multiset<Effect>)

  function ConfigOf(m: map<string, GpuConfig>, gpu: string): GpuConfig {
    if gpu in m then m[gpu] else DEFAULT_GPU
  }

  datatype Action =
    | Begin(edit: nat, gpu: string)
    | Read(edit: nat, next: GpuConfig)
    | Abort(edit: nat)
    | Apply(edit: nat, task: nat)
    | ApplyFails(edit: nat, left: GpuConfig, resetOk: bool)
    | Answered(answer: Answer)
    | Elapse(task: nat)
    | Select(task: nat, timer: bool)
    | Act(task: nat, left: GpuConfig, applyOk: bool)
    | Clear(task: nat)
    | CleanClocks(gpu: string)

  ghost predicate Enabled(s: State, a: Action) {
    match a
    case Begin(e, gpu) => e !in s.edits && s.slot.None?
    case Read(e, next) => e in s.edits && s.edits[e].Checked?
    case Abort(e) => e in s.edits
    case Apply(e, t) => e in s.edits && s.edits[e].Prepared? && t !in s.tasks
    case ApplyFails(e, left, resetOk) => e in s.edits && s.edits[e].Prepared?
    case Answered(answer) => true
    case Elapse(t) => t in s.tasks && s.tasks[t].phase.Waiting?
    case Select(t, timer) =>
      t in s.tasks && s.tasks[t].phase.Waiting? &&
          (if timer then s.tasks[t].timerElapsed else s.tasks[t].channel != Open)
    case Act(t, left, applyOk) => t in s.tasks && (s.tasks[t].phase.Committing? || s.tasks[t].phase.Reverting?)
    case Clear(t) => t in s.tasks && s.tasks[t].phase.Finishing?
    case CleanClocks(gpu) => true
  }

  // What a step does to each part of the state.

  function NextHardware(s: State, a: Action): map<string, GpuConfig>
    requires Enabled(s, a)
  {
    match a
    case Apply(e, _) => s.hardware[s.edits[e].gpu := s.edits[e].next]
    case ApplyFails(e, left, resetOk) => s.hardware[s.edits[e].gpu := if resetOk then s.edits[e].previous else left]
    case Act(t, left, applyOk) =>
      var task := s.tasks[t];
      if task.phase.Committing? then s.hardware
      else s.hardware[task.gpu := if applyOk then task.previous else left]
    case CleanClocks(gpu) => s.hardware[gpu := ConfigOf(s.hardware, gpu).(clocks := DEFAULT)]
    case _ => s.hardware
  }

  function NextConfig(s: State, a: Action): map<string, GpuConfig>
    requires Enabled(s, a)
  {
    if a.Act? && s.tasks[a.task].phase.Committing?
    then s.config[s.tasks[a.task].gpu := s.tasks[a.task].next]
    else s.config
  }

  /** A request to confirm or revert takes the sender; a new change replaces it; a finished one clears it. */
  function NextSlot(s: State, a: Action): Option<nat> {
    if a.Apply? then Some(a.task) else if a.Answered? || a.Clear? then None else s.slot
  }

  function NextEdits(s: State, a: Action): map<nat, Edit>
    requires Enabled(s, a)
  {
    match a
    case Begin(e, gpu) => s.edits[e := Checked(gpu)]
    case Read(e, next) => s.edits[e := Prepared(s.edits[e].gpu, ConfigOf(s.config, s.edits[e].gpu), next)]
    case Abort(e) => s.edits - {e}
    case Apply(e, _) => s.edits - {e}
    case ApplyFails(e, _, _) => s.edits - {e}
    case _ => s.edits
  }

  /** The stored sender reaches its task only while that still waits; one that is not used is dropped. */
  function NextChannel(s: State, a: Action, t: nat): Channel
    requires t in s.tasks
  {
    if s.slot == Some(t) && a.Answered? && s.tasks[t].phase.Waiting? then Sent(a.answer)
    else if s.slot == Some(t) && (a.Answered? || a.Apply? || a.Clear?) then Dropped
    else s.tasks[t].channel
  }

  function NextPhase(s: State, a: Action, t: nat): Phase
    requires t in s.tasks
  {
    var task := s.tasks[t];
    if a.Select? && a.task == t then if !a.timer && task.channel == Sent(Confirm) then Committing else Reverting
    else if a.Act? && a.task == t then Finishing(task.phase.Committing?)
    else if a.Clear? && a.task == t && task.phase.Finishing? then Done(task.phase.saved)
    else task.phase
  }

  function NextTask(s: State, a: Action, t: nat): Task
    requires t in s.tasks
  {
    s.tasks[t].(channel := NextChannel(s, a, t), phase := NextPhase(s, a, t),
                timerElapsed := s.tasks[t].timerElapsed || a == Elapse(t))
  }

  function NewTask(edit: Edit): Task
    requires edit.Prepared?
  {
    Task(edit.gpu, edit.previous, edit.next, Open, false, Waiting)
  }

  function NextTasks(s: State, a: Action): map<nat, Task>
    requires Enabled(s, a)
  {
    var tasks := map t | t in s.tasks :: NextTask(s, a, t);
    if a.Apply? then tasks[a.task := NewTask(s.edits[a.edit])] else tasks
  }

  function NextEffects(s: State, a: Action): multiset<Effect>
    requires Enabled(s, a)
  {
    if !a.Act? then s.effects
    else s.effects + multiset{if s.tasks[a.task].phase.Committing? then Saved(a.task) else Reapplied(a.task)}
  }

  function Next(s: State, a: Action): State
    requires Enabled(s, a)
  {
    State(NextHardware(s, a), NextConfig(s, a), NextSlot(s, a), NextEdits(s, a), NextTasks(s, a), NextEffects(s, a))
  }

  ghost predicate Start(s: State) {
    && s.slot.None? && s.edits == map[] && s.tasks == map[] && s.effects == multiset{}
    && forall gpu :: ConfigOf(s.hardware, gpu) == ConfigOf(s.config, gpu)
  }

  /** A run of the system: the actions can be taken one after the other. */
  ghost predicate Path(s: State, actions: seq<Action>)
    decreases |actions|
  {
    actions == [] || (Enabled(s, actions[0]) && Path(Next(s, actions[0]), actions[1..]))
  }

  /** The state in which a run ends. */
  ghost function End(s: State, actions: seq<Action>): State
    requires Path(s, actions)
    decreases |actions|
  {
    if actions == [] then s else End(Next(s, actions[0]), actions[1..])
  }

  // ---------- Under every interleaving: each change has exactly one outcome ----------

  ghost predicate SlotInv(s: State) {
    && (s.slot.Some? ==> s.slot.value in s.tasks)
    && (forall t :: t in s.tasks ==> (s.tasks[t].channel == Open <==> s.slot == Some(t)))
  }

  ghost predicate PhaseInv(task: Task) {
    match task.phase
    case Waiting => true
    case Committing => task.channel == Sent(Confirm)
    case Reverting => task.timerElapsed || task.channel in {Sent(Revert), Dropped}
    case Finishing(saved) =>
      if saved then task.channel == Sent(Confirm) else task.timerElapsed || task.channel in {Sent(Revert), Dropped}
    case Done(saved) =>
      task.channel != Open
      && if saved then task.channel == Sent(Confirm) else task.timerElapsed || task.channel in {Sent(Revert), Dropped}
  }

  predicate Counts(effects: multiset<Effect>, t: nat, saved: bool) {
    effects[Saved(t)] == (if saved then 1 else 0) && effects[Reapplied(t)] == (if saved then 0 else 1)
  }

  ghost predicate EffectInv(s: State, t: nat) {
    if t !in s.tasks then s.effects[Saved(t)] == 0 && s.effects[Reapplied(t)] == 0
    else match s.tasks[t].phase
      case Finishing(saved) => Counts(s.effects, t, saved)
      case Done(saved) => Counts(s.effects, t, saved)
      case _ => s.effects[Saved(t)] == 0 && s.effects[Reapplied(t)] == 0
  }

  ghost predicate OutcomeInv(s: State) {
    && SlotInv(s)
    && (forall t :: t in s.tasks ==> PhaseInv(s.tasks[t]))
    && (forall t: nat :: EffectInv(s, t))
  }

  lemma StepKeepsSlot(s: State, a: Action)
    requires SlotInv(s) && Enabled(s, a)
    ensures SlotInv(Next(s, a))
  {
    assert a.Apply? ==> a.task !in s.tasks;
    hide Enabled, NextHardware, NextConfig, NextEdits, NextPhase, NextEffects;
  }

  lemma TaskKeepsPhase(s: State, a: Action, t: nat)
    requires SlotInv(s) && Enabled(s, a) && t in s.tasks && PhaseInv(s.tasks[t])
    ensures PhaseInv(NextTask(s, a, t))
  {
    if a.Select? && a.task == t && s.tasks[t].channel.Sent? {
      match s.tasks[t].channel.answer
      case Confirm =>
      case Revert =>
    }
  }

  lemma StepKeepsPhases(s: State, a: Action)
    requires SlotInv(s) && Enabled(s, a) && forall t :: t in s.tasks ==> PhaseInv(s.tasks[t])
    ensures forall t :: t in Next(s, a).tasks ==> PhaseInv(Next(s, a).tasks[t])
  {
    forall t | t in s.tasks ensures PhaseInv(NextTask(s, a, t)) { TaskKeepsPhase(s, a, t); }
    hide Enabled, NextTask, NextHardware, NextConfig, NextEdits, NextEffects;
  }

  lemma StepKeepsEffects(s: State, a: Action, t: nat)
    requires Enabled(s, a) && EffectInv(s, t)
    ensures EffectInv(Next(s, a), t)
  {}

  lemma StepKeepsOutcome(s: State, a: Action)
    requires OutcomeInv(s) && Enabled(s, a)
    ensures OutcomeInv(Next(s, a))
  {
    StepKeepsSlot(s, a);
    StepKeepsPhases(s, a);
    forall t: nat ensures EffectInv(Next(s, a), t) { StepKeepsEffects(s, a, t); }
    hide Next, Enabled, SlotInv, PhaseInv, EffectInv;
  }

  lemma {:induction false} OutcomeAlways(s: State, actions: seq<Action>)
    requires OutcomeInv(s) && Path(s, actions)
    ensures OutcomeInv(End(s, actions))
    decreases |actions|
  {
    if actions != [] {
      StepKeepsOutcome(s, actions[0]);
      OutcomeAlways(Next(s, actions[0]), actions[1..]);
    }
    hide OutcomeInv, Next, Enabled;
  }

  /**
    In every run a change is saved or taken back at most once, and never both; once its task has ended
    it was exactly one of them. It is saved only if Confirm was sent on its own channel, and taken back
    only if its timer ran out, Revert was sent, or its sender was dropped.
   */
  lemma {:induction false} ExactlyOneOutcome(start: State, actions: seq<Action>, t: nat)
    requires Start(start) && Path(start, actions) && t in End(start, actions).tasks
    ensures var s, task := End(start, actions), End(start, actions).tasks[t];
      && s.effects[Saved(t)] + s.effects[Reapplied(t)] <= 1
      && (task.phase.Done? ==> s.effects[Saved(t)] + s.effects[Reapplied(t)] == 1)
      && (s.effects[Saved(t)] == 1 ==> task.channel == Sent(Confirm))
      && (s.effects[Reapplied(t)] == 1 ==> task.timerElapsed || task.channel in {Sent(Revert), Dropped})
  {
    OutcomeAlways(start, actions);
    assert EffectInv(End(start, actions), t) && PhaseInv(End(start, actions).tasks[t]);
  }

  /** Only the task whose sender is stored can be waiting with nothing but its timer to wake it. */
  lemma {:induction false} OthersCanProceed(start: State, actions: seq<Action>, t: nat)
    requires Start(start) && Path(start, actions)
    requires var s := End(start, actions); t in s.tasks && !s.tasks[t].phase.Done? && s.slot != Some(t)
    ensures var s := End(start, actions);
      Enabled(s, Select(t, false)) || Enabled(s, Act(t, DEFAULT_GPU, true)) || Enabled(s, Clear(t))
  {
    hide Path, Next;
    OutcomeAlways(start, actions);
    assert SlotInv(End(start, actions)) && PhaseInv(End(start, actions).tasks[t]);
    hide End, OutcomeInv, Start;
  }

  // ---------- Hardware and saved settings ----------

  datatype Change = Change(previous: GpuConfig, next: GpuConfig)

  ghost predicate Unresolved(task: Task) {
    task.phase.Waiting? || task.phase.Committing? || task.phase.Reverting?
  }

  /** The unresolved changes of a GPU. */
  ghost function ChangesOf(s: State, gpu: string): map<nat, Change> {
    map t | t in s.tasks && s.tasks[t].gpu == gpu && Unresolved(s.tasks[t]) ::
      Change(s.tasks[t].previous, s.tasks[t].next)
  }

  /** The edits of a GPU that are in progress. */
  ghost function EditsOf(s: State, gpu: string): map<nat, Edit> {
    map e | e in s.edits && s.edits[e].gpu == gpu :: s.edits[e]
  }

  /** An edit begins only when its GPU has no other edit in progress and no unresolved change. */
  ghost predicate Serial(s: State, a: Action) {
    match a
    case Begin(e, gpu) => (forall f :: f !in EditsOf(s, gpu)) && (forall t :: t !in ChangesOf(s, gpu))
    case ApplyFails(e, left, resetOk) => resetOk
    case Act(t, left, applyOk) => applyOk
    case CleanClocks(gpu) => false
    case _ => true
  }

  /** Saved settings and hardware of a GPU agree, unless a change of it is unresolved. */
  ghost predicate Settled(hardware: GpuConfig, config: GpuConfig, edits: map<nat, Edit>, changes: map<nat, Change>) {
    && (forall e, f :: e in edits && f in edits ==> e == f)
    && (forall t, u :: t in changes && u in changes ==> t == u)
    && (forall e, t :: e in edits ==> t !in changes)
    && (forall e :: e in edits && edits[e].Prepared? ==> edits[e].previous == config)
    && ((forall t :: t !in changes) ==> hardware == config)
    && (forall t :: t in changes ==> changes[t] == Change(config, hardware))
  }

  ghost predicate SettledOn(s: State, gpu: string) {
    Settled(ConfigOf(s.hardware, gpu), ConfigOf(s.config, gpu), EditsOf(s, gpu), ChangesOf(s, gpu))
  }

  /** Whether task `t` is an unresolved change of the GPU, and which. */
  ghost function ChangeAt(s: State, gpu: string, t: nat): Option<Change> {
    if t in s.tasks && s.tasks[t].gpu == gpu && Unresolved(s.tasks[t])
    then Some(Change(s.tasks[t].previous, s.tasks[t].next))
    else None
  }

  lemma ChangeAfter(s: State, a: Action, gpu: string, t: nat)
    requires Enabled(s, a)
    ensures ChangeAt(Next(s, a), gpu, t) ==
      if a.Act? && a.task == t then None
      else if a.Apply? && a.task == t && s.edits[a.edit].gpu == gpu
      then Some(Change(s.edits[a.edit].previous, s.edits[a.edit].next))
      else ChangeAt(s, gpu, t)
  {
    assert t in s.tasks ==>
      t in Next(s, a).tasks && (a.Apply? ==> t != a.task) && Next(s, a).tasks[t] == NextTask(s, a, t);
    assert t !in s.tasks && t in Next(s, a).tasks ==>
      a.Apply? && t == a.task && Next(s, a).tasks[t] == NewTask(s.edits[a.edit]);
    hide Next, NextChannel;
  }

  lemma SameChanges(s: State, gpu: string, changes: map<nat, Change>)
    requires forall t: nat :: ChangeAt(s, gpu, t) == if t in changes then Some(changes[t]) else None
    ensures ChangesOf(s, gpu) == changes
  {
    forall t | t in ChangesOf(s, gpu) ensures t in changes && ChangesOf(s, gpu)[t] == changes[t] {
      assert ChangeAt(s, gpu, t).Some?;
    }
    forall t | t in changes ensures t in ChangesOf(s, gpu) {
      assert ChangeAt(s, gpu, t).Some?;
    }
  }

  lemma ChangesAfter(s: State, a: Action, gpu: string)
    requires Enabled(s, a)
    ensures ChangesOf(Next(s, a), gpu) ==
      if a.Act? then ChangesOf(s, gpu) - {a.task}
      else if a.Apply? && s.edits[a.edit].gpu == gpu then
        ChangesOf(s, gpu)[a.task := Change(s.edits[a.edit].previous, s.edits[a.edit].next)]
      else ChangesOf(s, gpu)
  {
    var changes := ChangesOf(s, gpu);
    var after :=
      if a.Act? then changes - {a.task}
      else if a.Apply? && s.edits[a.edit].gpu == gpu then
          changes[a.task := Change(s.edits[a.edit].previous, s.edits[a.edit].next)]
      else changes;
    forall t: nat ensures ChangeAt(s, gpu, t) == if t in changes then Some(changes[t]) else None {}
    forall t: nat ensures ChangeAt(Next(s, a), gpu, t) == if t in after then Some(after[t]) else None {
      ChangeAfter(s, a, gpu, t);
      hide Next, ChangesOf, ChangeAt;
    }
    hide Next, ChangesOf, ChangeAt;
    SameChanges(Next(s, a), gpu, after);
  }

  lemma EditsAfter(s: State, a: Action, gpu: string)
    requires Enabled(s, a)
    ensures EditsOf(Next(s, a), gpu) ==
      match a
      case Begin(e, g) => if g == gpu then EditsOf(s, gpu)[e := Checked(g)] else EditsOf(s, gpu)
      case Read(e, next) =>
        if e in EditsOf(s, gpu) then EditsOf(s, gpu)[e := Prepared(gpu, ConfigOf(s.config, gpu), next)]
            else EditsOf(s, gpu)
      case Abort(e) => EditsOf(s, gpu) - {e}
      case Apply(e, _) => EditsOf(s, gpu) - {e}
      case ApplyFails(e, _, _) => EditsOf(s, gpu) - {e}
      case _ => EditsOf(s, gpu)
  {
    hide NextHardware, NextConfig, NextTasks, NextEffects, ConfigOf;
  }

  // Steps on the view of one GPU.

  lemma Resolved(hardware: GpuConfig, config: GpuConfig, edits: map<nat, Edit>, changes: map<nat, Change>, t: nat)
    requires Settled(hardware, config, edits, changes) && t in changes
    ensures Settled(hardware, changes[t].next, edits, changes - {t})
    ensures Settled(changes[t].previous, config, edits, changes - {t})
  {}

  lemma Started(hardware: GpuConfig, config: GpuConfig, edits: map<nat, Edit>, changes: map<nat, Change>, e: nat,
      t: nat)
    requires Settled(hardware, config, edits, changes) && e in edits && edits[e].Prepared?
    ensures Settled(edits[e].next, config, edits - {e}, changes[t := Change(edits[e].previous, edits[e].next)])
    ensures Settled(edits[e].previous, config, edits - {e}, changes)
  {
    assert forall u :: u !in changes;
    assert t in changes[t := Change(edits[e].previous, edits[e].next)];
  }

  lemma EditChanged(hardware: GpuConfig, config: GpuConfig, edits: map<nat, Edit>, changes: map<nat, Change>,
      e: nat, edit: Edit)
    requires Settled(hardware, config, edits, changes)
    ensures Settled(hardware, config, edits - {e}, changes)
    ensures (edit.Prepared? ==> edit.previous == config)
      && (e in edits || ((forall f :: f !in edits) && (forall t :: t !in changes)))
      ==> Settled(hardware, config, edits[e := edit], changes)
  {}

  lemma ActKeepsSettled(s: State, a: Action, gpu: string)
    requires Enabled(s, a) && Serial(s, a) && a.Act? && SettledOn(s, gpu)
    ensures SettledOn(Next(s, a), gpu)
  {
    ChangesAfter(s, a, gpu);
    EditsAfter(s, a, gpu);
    var task, changes := s.tasks[a.task], ChangesOf(s, gpu);
    if task.gpu == gpu {
      assert a.task in changes && changes[a.task] == Change(task.previous, task.next);
      Resolved(ConfigOf(s.hardware, gpu), ConfigOf(s.config, gpu), EditsOf(s, gpu), changes, a.task);
    } else {
      assert a.task !in changes;
      assert changes - {a.task} == changes;
    }
    hide EditsOf, ChangesOf, NextEdits, NextTasks, NextEffects, Settled;
  }

  lemma EditKeepsSettled(s: State, a: Action, gpu: string)
    requires Enabled(s, a) && Serial(s, a) && SettledOn(s, gpu)
    requires a.Begin? || a.Read? || a.Abort? || a.Apply? || a.ApplyFails?
    ensures SettledOn(Next(s, a), gpu)
  {
    ChangesAfter(s, a, gpu);
    EditsAfter(s, a, gpu);
    var hardware, config, edits, changes := ConfigOf(s.hardware, gpu), ConfigOf(s.config, gpu), EditsOf(s, gpu),
        ChangesOf(s, gpu);
    assert !a.Begin? ==> (a.edit in edits <==> s.edits[a.edit].gpu == gpu);
    assert a.edit in edits ==> edits[a.edit] == s.edits[a.edit];
    assert a.edit !in edits ==> edits - {a.edit} == edits;
    match a {
      case Begin(e, g) => EditChanged(hardware, config, edits, changes, e, Checked(g));
      case Read(e, next) => EditChanged(hardware, config, edits, changes, e, Prepared(gpu, config, next));
      case Abort(e) => EditChanged(hardware, config, edits, changes, e, Checked(gpu));
      case Apply(e, t) => if e in edits { Started(hardware, config, edits, changes, e, t); }
      case ApplyFails(e, left, resetOk) => if e in edits { Started(hardware, config, edits, changes, e, 0); }
    }
    hide EditsOf, ChangesOf, NextEdits, NextTasks, NextEffects, Settled;
  }

  lemma StepKeepsSettled(s: State, a: Action, gpu: string)
    requires Enabled(s, a) && Serial(s, a) && SettledOn(s, gpu)
    ensures SettledOn(Next(s, a), gpu)
  {
    if a.Act? {
      ActKeepsSettled(s, a, gpu);
    } else if a.Begin? || a.Read? || a.Abort? || a.Apply? || a.ApplyFails? {
      EditKeepsSettled(s, a, gpu);
    } else {
      ChangesAfter(s, a, gpu);
      EditsAfter(s, a, gpu);
      hide EditsOf, ChangesOf, Settled, NextEdits, NextTasks, NextEffects;
    }
  }

  /** The actions can be taken one after the other, each of them a serial one. */
  ghost predicate SerialPath(s: State, actions: seq<Action>)
    ensures SerialPath(s, actions) ==> Path(s, actions)
    decreases |actions|
  {
    actions == [] ||
    (Enabled(s, actions[0]) && Serial(s, actions[0]) && SerialPath(Next(s, actions[0]), actions[1..]))
  }

  lemma {:induction false} SettledAlways(s: State, actions: seq<Action>, gpu: string)
    requires SerialPath(s, actions) && SettledOn(s, gpu)
    ensures SettledOn(End(s, actions), gpu)
    decreases |actions|
  {
    if actions != [] {
      StepKeepsSettled(s, actions[0], gpu);
      hide SettledOn, Enabled, Serial, Next;
      SettledAlways(Next(s, actions[0]), actions[1..], gpu);
    }
  }

  lemma SettledAtStart(s: State, gpu: string)
    requires Start(s)
    ensures SettledOn(s, gpu)
  {}

  /** A GPU without unresolved change is configured as saved. */
  ghost predicate InStep(s: State, gpu: string) {
    (forall t :: t in s.tasks && s.tasks[t].gpu == gpu ==> !Unresolved(s.tasks[t])) ==>
      ConfigOf(s.hardware, gpu) == ConfigOf(s.config, gpu)
  }

  lemma SettledInStep(s: State, gpu: string)
    requires SettledOn(s, gpu)
    ensures InStep(s, gpu)
    ensures forall t :: t in s.tasks && s.tasks[t].gpu == gpu && Unresolved(s.tasks[t]) ==>
      ConfigOf(s.hardware, gpu) == s.tasks[t].next && ConfigOf(s.config, gpu) == s.tasks[t].previous
  {
    forall t | t in s.tasks && s.tasks[t].gpu == gpu && Unresolved(s.tasks[t])
      ensures ConfigOf(s.hardware, gpu) == s.tasks[t].next && ConfigOf(s.config, gpu) == s.tasks[t].previous
    {
      assert t in ChangesOf(s, gpu) && ChangesOf(s, gpu)[t] == Change(s.tasks[t].previous, s.tasks[t].next);
    }
  }

  /**
    As long as no edit of a GPU begins while another edit or an unresolved change of that GPU is in
    progress, and re-applying previous settings succeeds: whenever a GPU has no unresolved change, its
    hardware is configured as saved; while it has one, the hardware has the new settings and the
    settings to go back to are exactly the saved ones.
   */
  lemma {:induction false} HardwareMatchesSaved(start: State, actions: seq<Action>, gpu: string)
    requires Start(start) && SerialPath(start, actions)
    ensures InStep(End(start, actions), gpu)
    ensures var s := End(start, actions);
      forall t :: t in s.tasks && s.tasks[t].gpu == gpu && Unresolved(s.tasks[t]) ==>
        ConfigOf(s.hardware, gpu) == s.tasks[t].next && ConfigOf(s.config, gpu) == s.tasks[t].previous
  {
    SettledAtStart(start, gpu);
    SettledAlways(start, actions, gpu);
    SettledInStep(End(start, actions), gpu);
  }
}
