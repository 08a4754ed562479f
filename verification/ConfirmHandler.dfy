/**
  The daemon's handler as the object it is. Its methods are the stretches of an edit, of a change task
  and of the requests during which nothing else runs; `Serve` runs them in any order a run allows.
 */
module ConfirmHandler {
  import opened Wrappers
  import opened ClocksConfig
  import opened ConfirmProtocol

  class Handler {
    var hardware: map<string, GpuConfig>
    var config: map<string, GpuConfig>
    var confirmConfigTx: Option<nat>
    var edits: map<nat, Edit>
    var tasks: map<nat, Task>
    ghost var effects: multiset<Effect>

    ghost function Contents(): State
      reads this
    {
      State(hardware, config, confirmConfigTx, edits, tasks, effects)
    }

    ghost predicate Valid()
      reads this
    {
      OutcomeInv(Contents())
    }

    constructor (config: map<string, GpuConfig>)
      ensures Valid() && Start(Contents()) && this.config == config
    {
      this.config, hardware := config, config;
      confirmConfigTx, edits, tasks, effects := None, map[], map[], multiset{};
    }

    /** The check at the start of an edit: refused while a sender is stored. */
    method BeginEdit(edit: nat, gpu: string) returns (ok: bool)
      requires Valid() && edit !in edits
      modifies this
      ensures Valid()
      ensures ok <==> old(confirmConfigTx).None?
      ensures ok <==> old(forall t :: t in tasks ==> tasks[t].channel != Open)
      ensures Contents() == if ok then Next(old(Contents()), Begin(edit, gpu)) else old(Contents())
    {
      ok := confirmConfigTx.None?;
      if ok {
        StepKeepsOutcome(Contents(), Begin(edit, gpu));
        SameTasks(Contents(), Begin(edit, gpu));
        edits := edits[edit := Checked(gpu)];
      }
    }

    /** Reads the saved settings and edits a copy, for example by a batch of clock commands. */
    method ReadConfig(edit: nat, f: GpuConfig -> GpuConfig)
      requires Valid() && edit in edits && edits[edit].Checked?
      modifies this
      ensures Valid()
      ensures var previous := ConfigOf(old(config), old(edits)[edit].gpu);
        Contents() == Next(old(Contents()), Read(edit, f(previous)))
      ensures edit in edits && edits[edit].Prepared? && edits[edit].next == f(edits[edit].previous)
      ensures var gpu := edits[edit].gpu;
        && (gpu in config ==> edits[edit].previous == config[gpu])
        && (gpu !in config ==> forall setting: ClockspeedType :: !setting.Reset? ==>
              Get(edits[edit].previous.clocks, setting) == None)
    {
      var gpu := edits[edit].gpu;
      var previous := ConfigOf(config, gpu);
      var next := f(previous);
      StepKeepsOutcome(Contents(), Read(edit, next));
      SameTasks(Contents(), Read(edit, next));
      edits := edits[edit := Prepared(gpu, previous, next)];
    }

    /** An edit ends early when its GPU or profile is not found. */
    method AbortEdit(edit: nat)
      requires Valid() && edit in edits
      modifies this`edits
      ensures Valid() && Contents() == Next(old(Contents()), Abort(edit))
    {
      StepKeepsOutcome(Contents(), Abort(edit));
      SameTasks(Contents(), Abort(edit));
      edits := edits - {edit};
    }

    /**
      Applies the new settings. If the device takes them, a task with a new channel is spawned;
      otherwise the previous settings are applied again, and `left` is what a failure of that leaves.
     */
    method ApplyEdit(edit: nat, task: nat, applied: bool, left: GpuConfig, resetOk: bool)
      requires Valid() && edit in edits && edits[edit].Prepared? && (applied ==> task !in tasks)
      modifies this
      ensures Valid()
      ensures Contents() ==
        Next(old(Contents()), if applied then Apply(edit, task) else ApplyFails(edit, left, resetOk))
    {
      StepKeepsOutcome(Contents(), if applied then Apply(edit, task) else ApplyFails(edit, left, resetOk));
      var e := edits[edit];
      edits := edits - {edit};
      if applied {
        hardware := hardware[e.gpu := e.next];
        WaitConfigConfirm(task, e);
        ApplyTasks(old(Contents()), edit, task);
      } else {
        hardware := hardware[e.gpu := if resetOk then e.previous else left];
        SameTasks(old(Contents()), ApplyFails(edit, left, resetOk));
      }
    }

    /** Storing the new sender drops a sender that was stored. */
    method WaitConfigConfirm(task: nat, e: Edit)
      requires e.Prepared? && task !in tasks
      modifies this`confirmConfigTx, this`tasks
      ensures confirmConfigTx == Some(task)
      ensures tasks == WithoutSender(old(tasks), old(confirmConfigTx))[task := NewTask(e)]
    {
      DropSender();
      confirmConfigTx := Some(task);
      tasks := tasks[task := Task(e.gpu, e.previous, e.next, Open, false, Waiting)];
    }

    method DropSender()
      modifies this`confirmConfigTx, this`tasks
      ensures confirmConfigTx == None && tasks == WithoutSender(old(tasks), old(confirmConfigTx))
    {
      if confirmConfigTx.Some? && confirmConfigTx.value in tasks {
        var t := confirmConfigTx.value;
        tasks := tasks[t := tasks[t].(channel := Dropped)];
      }
      confirmConfigTx := None;
    }

    /** An error if no change is pending, or if its task no longer listens. */
    method ConfirmPendingConfig(answer: Answer) returns (ok: bool)
      requires Valid()
      modifies this`confirmConfigTx, this`tasks
      ensures Valid() && Contents() == Next(old(Contents()), Answered(answer))
      ensures ok <==> exists t :: t in old(tasks) && old(tasks)[t].channel == Open && tasks[t].channel == Sent(answer)
    {
      StepKeepsOutcome(Contents(), Answered(answer));
      AnsweredTasks(Contents(), answer);
      ok := false;
      if confirmConfigTx.Some? && tasks[confirmConfigTx.value].phase.Waiting? {
        var t := confirmConfigTx.value;
        tasks := tasks[t := tasks[t].(channel := Sent(answer))];
        ok := true;
        confirmConfigTx := None;
      } else {
        DropSender();
      }
    }

    /** The timer of a waiting task runs out. */
    method TimerRunsOut(t: nat)
      requires Valid() && t in tasks && tasks[t].phase.Waiting?
      modifies this`tasks
      ensures Valid() && Contents() == Next(old(Contents()), Elapse(t))
    {
      StepKeepsOutcome(Contents(), Elapse(t));
      ElapsedTasks(Contents(), t);
      tasks := tasks[t := tasks[t].(timerElapsed := true)];
    }

    /** The task takes whichever of its timer and its channel woke it. */
    method TaskWakes(t: nat, timer: bool)
      requires Valid() && Enabled(Contents(), Select(t, timer))
      modifies this`tasks
      ensures Valid() && Contents() == Next(old(Contents()), Select(t, timer))
      ensures tasks[t].phase.Committing? ==> !timer && tasks[t].channel == Sent(Confirm)
    {
      StepKeepsOutcome(Contents(), Select(t, timer));
      OneTask(Contents(), Select(t, timer), t);
      if timer {
        tasks := tasks[t := tasks[t].(phase := Reverting)];
      } else {
        match tasks[t].channel {
          case Sent(Confirm) => tasks := tasks[t := tasks[t].(phase := Committing)];
          case Sent(Revert) => tasks := tasks[t := tasks[t].(phase := Reverting)];
          case Dropped => tasks := tasks[t := tasks[t].(phase := Reverting)];
        }
      }
    }

    /** Saves the new settings, or applies the previous ones again: the one effect that a change has. */
    method TaskActs(t: nat, left: GpuConfig, applyOk: bool)
      requires Valid() && Enabled(Contents(), Act(t, left, applyOk))
      modifies this
      ensures Valid() && Contents() == Next(old(Contents()), Act(t, left, applyOk))
      ensures old(effects)[Saved(t)] == old(effects)[Reapplied(t)] == 0
      ensures effects[Saved(t)] + effects[Reapplied(t)] == 1
    {
      StepKeepsOutcome(Contents(), Act(t, left, applyOk));
      OneEffect(Contents(), Act(t, left, applyOk), t);
      OneTask(Contents(), Act(t, left, applyOk), t);
      hide OutcomeInv, EffectInv, NextTasks;
      var task := tasks[t];
      if task.phase.Committing? {
        config := config[task.gpu := task.next];
        effects := effects + multiset{Saved(t)};
      } else {
        hardware := hardware[task.gpu := if applyOk then task.previous else left];
        effects := effects + multiset{Reapplied(t)};
      }
      tasks := tasks[t := task.(phase := Finishing(task.phase.Committing?))];
    }

    /** A task that is done clears the stored sender, whoever's it is. */
    method TaskEnds(t: nat)
      requires Valid() && Enabled(Contents(), Clear(t))
      modifies this
      ensures Valid() && Contents() == Next(old(Contents()), Clear(t))
    {
      StepKeepsOutcome(Contents(), Clear(t));
      ClearTasks(Contents(), t);
      DropSender();
      tasks := tasks[t := tasks[t].(phase := Done(tasks[t].phase.saved))];
    }

    /** A request to reset the clocks cleans the device before the edit begins. */
    method CleanupClocks(gpu: string)
      requires Valid()
      modifies this`hardware
      ensures Valid() && Contents() == Next(old(Contents()), CleanClocks(gpu))
    {
      StepKeepsOutcome(Contents(), CleanClocks(gpu));
      SameTasks(Contents(), CleanClocks(gpu));
      hardware := hardware[gpu := ConfigOf(hardware, gpu).(clocks := DEFAULT)];
    }

    method Perform(a: Action)
      requires Valid() && Enabled(Contents(), a)
      modifies this
      ensures Valid() && Contents() == Next(old(Contents()), a)
    {
      hide Next, OutcomeInv;
      match a {
        case Begin(e, gpu) =>
          var _ := BeginEdit(e, gpu);
        case Read(e, next) => ReadConfig(e, _ => next);
        case Abort(e) => AbortEdit(e);
        case Apply(e, t) => ApplyEdit(e, t, true, DEFAULT_GPU, true);
        case ApplyFails(e, left, resetOk) => ApplyEdit(e, 0, false, left, resetOk);
        case Answered(answer) => var _ := ConfirmPendingConfig(answer);
        case Elapse(t) => TimerRunsOut(t);
        case Select(t, timer) => TaskWakes(t, timer);
        case Act(t, left, applyOk) => TaskActs(t, left, applyOk);
        case Clear(t) => TaskEnds(t);
        case CleanClocks(gpu) => CleanupClocks(gpu);
      }
    }

    /**
      Runs the methods in the order of a run of the system. Every change whose task ended was saved or
      taken back exactly once; and if the run is serial, GPUs that were in step with their saved
      settings are so again whenever nothing is unresolved.
     */
    method Serve(actions: seq<Action>)
      requires Valid() && Path(Contents(), actions)
      modifies this
      ensures Valid() && Contents() == End(old(Contents()), actions)
      ensures forall t :: t in tasks && tasks[t].phase.Done? ==> effects[Saved(t)] + effects[Reapplied(t)] == 1
      ensures forall gpu :: old(SettledOn(Contents(), gpu)) && SerialPath(old(Contents()), actions) ==>
        InStep(Contents(), gpu)
    {
      ghost var start := Contents();
      var rest := actions;
      assert rest == actions[0..];
      for i := 0 to |actions|
        invariant Valid() && rest == actions[i..] && Path(Contents(), rest)
        invariant End(Contents(), rest) == End(start, actions)
      {
        var a := rest[0];
        Perform(a);
        rest := rest[1..];
      }
      forall t | t in tasks && tasks[t].phase.Done? ensures effects[Saved(t)] + effects[Reapplied(t)] == 1 {
        assert EffectInv(Contents(), t);
      }
      forall gpu | SettledOn(start, gpu) && SerialPath(start, actions) ensures InStep(Contents(), gpu) {
        SettledAlways(start, actions, gpu);
        SettledInStep(Contents(), gpu);
      }
    }
  }

  // ---------- What the steps do to the tasks ----------

  function WithoutSender(tasks: map<nat, Task>, slot: Option<nat>): map<nat, Task> {
    if slot.Some? && slot.value in tasks then tasks[slot.value := tasks[slot.value].(channel := Dropped)] else tasks
  }

  lemma SameTasks(s: State, a: Action)
    requires a.Begin? || a.Read? || a.Abort? || a.ApplyFails? || a.CleanClocks?
    ensures Enabled(s, a) ==> NextTasks(s, a) == s.tasks
  {
    forall t | t in s.tasks ensures NextTask(s, a, t) == s.tasks[t] {}
  }

  lemma ElapsedTasks(s: State, t: nat)
    requires Enabled(s, Elapse(t))
    ensures NextTasks(s, Elapse(t)) == s.tasks[t := s.tasks[t].(timerElapsed := true)]
  {
    forall u | u in s.tasks && u != t ensures NextTask(s, Elapse(t), u) == s.tasks[u] {}
    assert NextTask(s, Elapse(t), t) == s.tasks[t].(timerElapsed := true);
  }

  lemma OneTask(s: State, a: Action, t: nat)
    requires Enabled(s, a) && (a.Select? || a.Act?) && a.task == t
    ensures NextTasks(s, a) == s.tasks[t := s.tasks[t].(phase := NextPhase(s, a, t))]
  {
    forall u | u in s.tasks && u != t ensures NextTask(s, a, u) == s.tasks[u] {}
    assert NextTask(s, a, t) == s.tasks[t].(phase := NextPhase(s, a, t));
  }

  lemma OneEffect(s: State, a: Action, t: nat)
    requires OutcomeInv(s) && Enabled(s, a) && a.Act? && a.task == t
    ensures s.effects[Saved(t)] == s.effects[Reapplied(t)] == 0
    ensures NextEffects(s, a)[Saved(t)] + NextEffects(s, a)[Reapplied(t)] == 1
  {
    assert EffectInv(s, t);
  }

  lemma ApplyTasks(s: State, e: nat, t: nat)
    requires Enabled(s, Apply(e, t))
    ensures NextTasks(s, Apply(e, t)) == WithoutSender(s.tasks, s.slot)[t := NewTask(s.edits[e])]
  {
    forall u | u in s.tasks ensures NextTask(s, Apply(e, t), u) == WithoutSender(s.tasks, s.slot)[u] {}
  }

  lemma AnsweredTasks(s: State, answer: Answer)
    ensures NextTasks(s, Answered(answer)) ==
      if s.slot.Some? && s.slot.value in s.tasks && s.tasks[s.slot.value].phase.Waiting?
      then s.tasks[s.slot.value := s.tasks[s.slot.value].(channel := Sent(answer))]
      else WithoutSender(s.tasks, s.slot)
  {
    forall u | u in s.tasks && s.slot != Some(u) ensures NextTask(s, Answered(answer), u) == s.tasks[u] {}
    if s.slot.Some? && s.slot.value in s.tasks {
      var t := s.slot.value;
      assert NextTask(s, Answered(answer), t) == s.tasks[t].(channel := NextChannel(s, Answered(answer), t));
    }
  }

  lemma ClearTasks(s: State, t: nat)
    requires Enabled(s, Clear(t))
    ensures var tasks := WithoutSender(s.tasks, s.slot);
      t in tasks && NextTasks(s, Clear(t)) == tasks[t := tasks[t].(phase := Done(s.tasks[t].phase.saved))]
  {
    var clear, tasks := Clear(t), WithoutSender(s.tasks, s.slot);
    forall u | u in s.tasks && u != t ensures NextTask(s, clear, u) == tasks[u] {}
    assert NextTask(s, clear, t) == tasks[t].(phase := Done(s.tasks[t].phase.saved));
  }
}
