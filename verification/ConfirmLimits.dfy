/**
  Where the promises of the confirmation protocol end.

  The program lets an edit begin whenever no sender is stored. That is also the case while an earlier
  change is confirmed but not yet saved, and while another edit is still being applied.
 */
module ConfirmLimits {
  import opened Wrappers
  import opened ClocksConfig
  import opened ConfirmProtocol

  /** However things continue serially after the edit begins, the GPU's hardware keeps in step with what is saved. */
  ghost predicate SafeToEdit(s: State, e: nat, gpu: string)
    requires Enabled(s, Begin(e, gpu))
  {
    forall actions :: SerialPath(Next(s, Begin(e, gpu)), actions) ==> InStep(End(Next(s, Begin(e, gpu)), actions), gpu)
  }

  /** Nothing is unresolved, and yet the GPU is configured differently from what is saved. */
  ghost predicate Diverged(s: State, gpu: string) {
    (forall x :: x !in ChangesOf(s, gpu)) && ConfigOf(s.hardware, gpu) != ConfigOf(s.config, gpu)
  }

  lemma DivergedNotInStep(s: State, gpu: string)
    requires Diverged(s, gpu)
    ensures !InStep(s, gpu)
  {
    forall t | t in s.tasks && s.tasks[t].gpu == gpu ensures !Unresolved(s.tasks[t]) {
      assert t !in ChangesOf(s, gpu);
    }
  }

  ghost predicate Idle(s: State, gpu: string) {
    (forall e :: e !in EditsOf(s, gpu)) && (forall t :: t !in ChangesOf(s, gpu))
  }

  // ---------- Playing actions ----------

  lemma {:induction false} Prepend(s: State, a: Action, actions: seq<Action>)
    requires Enabled(s, a) && Serial(s, a) && SerialPath(Next(s, a), actions)
    ensures SerialPath(s, [a] + actions) && End(s, [a] + actions) == End(Next(s, a), actions)
  {
    assert ([a] + actions)[1..] == actions;
    hide Enabled, Serial, Next;
  }

  lemma {:induction false} Append(s: State, first: seq<Action>, second: seq<Action>)
    requires SerialPath(s, first) && SerialPath(End(s, first), second)
    ensures SerialPath(s, first + second) && End(s, first + second) == End(End(s, first), second)
    decreases |first|
  {
    hide Enabled, Serial, Next;
    if first == [] {
      assert first + second == second;
    } else {
      Append(Next(s, first[0]), first[1..], second);
      assert (first + second)[1..] == first[1..] + second;
    }
  }

  // ---------- A change that is applied, confirmed and saved at once ----------

  /**
    A state that differs from `s` in that edit `e` has been applied as task `u`, which is as given;
    a sender that was stored has been dropped.
   */
  ghost predicate Running(s: State, e: nat, u: nat, f: State, task: Task, slot: Option<nat>, saved: bool)
    requires e in s.edits && s.edits[e].Prepared?
  {
    var edit := s.edits[e];
    && f.slot == slot && f.edits == s.edits - {e}
    && f.hardware == s.hardware[edit.gpu := edit.next]
    && f.config == (if saved then s.config[edit.gpu := edit.next] else s.config)
    && f.tasks.Keys == s.tasks.Keys + {u} && f.tasks[u] == task
    && (forall t :: t in s.tasks ==> t != u && t in f.tasks && f.tasks[t] == SenderDropped(s, t))
  }

  ghost function SenderDropped(s: State, t: nat): Task
    requires t in s.tasks
  {
    s.tasks[t].(channel := if s.slot == Some(t) then Dropped else s.tasks[t].channel)
  }

  lemma AfterApply(s: State, e: nat, u: nat)
    requires Enabled(s, Apply(e, u))
    ensures Running(s, e, u, Next(s, Apply(e, u)), NewTask(s.edits[e]), Some(u), false)
  {
    var f := Next(s, Apply(e, u));
    forall t | t in s.tasks ensures t != u && t in f.tasks && f.tasks[t] == SenderDropped(s, t) {
      assert f.tasks[t] == NextTask(s, Apply(e, u), t);
    }
  }

  lemma OthersUnchanged(f: State, a: Action, u: nat)
    requires Enabled(f, a) && u in f.tasks
    requires
      || (a == Answered(Confirm) && f.slot == Some(u))
      || a == Select(u, false)
      || (a.Act? && a.task == u)
      || (a == Clear(u) && f.slot.None?)
    ensures Next(f, a).tasks.Keys == f.tasks.Keys
    ensures forall t :: t in f.tasks ==> (t != u ==> Next(f, a).tasks[t] == f.tasks[t])
    ensures Next(f, a).tasks[u] == NextTask(f, a, u)
  {
    forall t | t in f.tasks && t != u ensures NextTask(f, a, t) == f.tasks[t] {}
  }

  lemma AfterAnswer(s: State, e: nat, u: nat, f: State)
    requires e in s.edits && s.edits[e].Prepared?
    requires Running(s, e, u, f, NewTask(s.edits[e]), Some(u), false)
    ensures Running(s, e, u, Next(f, Answered(Confirm)), NewTask(s.edits[e]).(channel := Sent(Confirm)), None, false)
  {
    OthersUnchanged(f, Answered(Confirm), u);
  }

  lemma AfterSelect(s: State, e: nat, u: nat, f: State, task: Task)
    requires e in s.edits && s.edits[e].Prepared?
    requires task.phase.Waiting? && task.channel == Sent(Confirm) && Running(s, e, u, f, task, None, false)
    ensures Enabled(f, Select(u, false)) &&
        Running(s, e, u, Next(f, Select(u, false)), task.(phase := Committing), None, false)
  {
    OthersUnchanged(f, Select(u, false), u);
  }

  lemma AfterCommit(s: State, e: nat, u: nat, f: State, task: Task, a: Action)
    requires e in s.edits && s.edits[e].Prepared? && a.Act? && a.task == u
    requires task.phase.Committing? && task.gpu == s.edits[e].gpu && task.next == s.edits[e].next
    requires Running(s, e, u, f, task, None, false)
    ensures Enabled(f, a) && Running(s, e, u, Next(f, a), task.(phase := Finishing(true)), None, true)
  {
    OthersUnchanged(f, a, u);
  }

  lemma AfterClear(s: State, e: nat, u: nat, f: State, task: Task)
    requires e in s.edits && s.edits[e].Prepared? && task.phase == Finishing(true)
    requires Running(s, e, u, f, task, None, true)
    ensures Enabled(f, Clear(u)) && Running(s, e, u, Next(f, Clear(u)), task.(phase := Done(true)), None, true)
  {
    OthersUnchanged(f, Clear(u), u);
  }

  lemma ConfirmAndSave(s: State, e: nat, u: nat, f: State) returns (actions: seq<Action>)
    requires e in s.edits && s.edits[e].Prepared?
    requires Running(s, e, u, f, NewTask(s.edits[e]).(channel := Sent(Confirm)), None, false)
    ensures SerialPath(f, actions)
    ensures Running(s, e, u, End(f, actions), NewTask(s.edits[e]).(channel := Sent(Confirm), phase := Done(true)),
        None, true)
  {
    hide Next, Running, SerialPath, End;
    var select, act, clear := Select(u, false), Act(u, DEFAULT_GPU, true), Clear(u);
    var task := NewTask(s.edits[e]).(channel := Sent(Confirm));
    AfterSelect(s, e, u, f, task);
    var f1 := Next(f, select);
    AfterCommit(s, e, u, f1, task.(phase := Committing), act);
    var f2 := Next(f1, act);
    AfterClear(s, e, u, f2, task.(phase := Finishing(true)));
    assert Serial(f, select) && Serial(f1, act) && Serial(f2, clear);
    hide Enabled, Serial;
    actions := PlayThree(f, select, act, clear);
  }

  lemma PlayThree(s: State, a: Action, b: Action, c: Action) returns (actions: seq<Action>)
    requires Enabled(s, a) && Serial(s, a)
    requires Enabled(Next(s, a), b) && Serial(Next(s, a), b)
    requires Enabled(Next(Next(s, a), b), c) && Serial(Next(Next(s, a), b), c)
    ensures SerialPath(s, actions) && End(s, actions) == Next(Next(Next(s, a), b), c)
    ensures actions == [a, b, c]
  {
    hide Enabled, Serial, Next;
    Prepend(Next(Next(s, a), b), c, []);
    assert [c] + [] == [c];
    Prepend(Next(s, a), b, [c]);
    Prepend(s, a, [b] + [c]);
    actions := [a] + ([b] + [c]);
  }

  /** An edit can be applied, confirmed, saved and cleared without any other task acting in between. */
  lemma ApplyAndConfirm(s: State, e: nat, u: nat) returns (actions: seq<Action>)
    requires e in s.edits && s.edits[e].Prepared? && u !in s.tasks
    ensures SerialPath(s, actions)
    ensures Running(s, e, u, End(s, actions), NewTask(s.edits[e]).(channel := Sent(Confirm), phase := Done(true)),
        None, true)
  {
    hide Next, Running, SerialPath, End;
    var apply, confirm := Apply(e, u), Answered(Confirm);
    AfterApply(s, e, u);
    var s1 := Next(s, apply);
    AfterAnswer(s, e, u, s1);
    assert Serial(s, apply) && Serial(s1, confirm) && Enabled(s, apply) && Enabled(s1, confirm);
    hide Enabled, Serial;
    actions := ConfirmAndSave(s, e, u, Next(s1, confirm));
    Prepend(s1, confirm, actions);
    actions := [confirm] + actions;
    Prepend(s, apply, actions);
    actions := [apply] + actions;
  }

  /** A change that has come and gone leaves no trace among the unresolved ones. */
  lemma DoneLeavesChanges(s: State, e: nat, u: nat, f: State, task: Task, slot: Option<nat>, saved: bool, gpu: string)
    requires e in s.edits && s.edits[e].Prepared? && u !in s.tasks
    requires Running(s, e, u, f, task, slot, saved) && task.phase.Done?
    ensures ChangesOf(f, gpu) == ChangesOf(s, gpu)
  {
    var changes := ChangesOf(s, gpu);
    forall t: nat ensures ChangeAt(f, gpu, t) == if t in changes then Some(changes[t]) else None {
      assert t in f.tasks <==> t in s.tasks || t == u;
    }
    SameChanges(f, gpu, changes);
  }

  // ---------- Resolving a change that can be resolved ----------

  predicate WillSave(task: Task) {
    task.phase.Committing? || (task.phase.Waiting? && task.channel == Sent(Confirm))
  }

  lemma ActResolves(s: State, t: nat, gpu: string)
    requires t in ChangesOf(s, gpu) && !s.tasks[t].phase.Waiting?
    ensures var a, task := Act(t, DEFAULT_GPU, true), s.tasks[t];
      && Enabled(s, a) && Serial(s, a)
      && ChangesOf(Next(s, a), gpu) == ChangesOf(s, gpu) - {t}
      && ConfigOf(Next(s, a).hardware, gpu) ==
          (if task.phase.Committing? then ConfigOf(s.hardware, gpu) else task.previous)
      && ConfigOf(Next(s, a).config, gpu) == (if task.phase.Committing? then task.next else ConfigOf(s.config, gpu))
  {
    ChangesAfter(s, Act(t, DEFAULT_GPU, true), gpu);
    hide ChangesOf, NextTasks, NextEdits, NextEffects;
  }

  lemma SelectMoves(s: State, t: nat, gpu: string)
    requires t in ChangesOf(s, gpu) && s.tasks[t].phase.Waiting? && s.tasks[t].channel != Open
    ensures var a := Select(t, false);
      && Enabled(s, a) && Serial(s, a)
      && Next(s, a).hardware == s.hardware && Next(s, a).config == s.config
      && ChangesOf(Next(s, a), gpu) == ChangesOf(s, gpu) && t in Next(s, a).tasks
      && Next(s, a).tasks[t] == s.tasks[t].(phase := if WillSave(s.tasks[t]) then Committing else Reverting)
  {
    ChangesAfter(s, Select(t, false), gpu);
    hide ChangesOf;
  }

  lemma FinishChange(s: State, t: nat, gpu: string) returns (actions: seq<Action>)
    requires t in ChangesOf(s, gpu) && (s.tasks[t].phase.Waiting? ==> s.tasks[t].channel != Open)
    ensures SerialPath(s, actions)
    ensures var f, task := End(s, actions), s.tasks[t];
      && ChangesOf(f, gpu) == ChangesOf(s, gpu) - {t}
      && ConfigOf(f.hardware, gpu) == (if WillSave(task) then ConfigOf(s.hardware, gpu) else task.previous)
      && ConfigOf(f.config, gpu) == (if WillSave(task) then task.next else ConfigOf(s.config, gpu))
  {
    var act := Act(t, DEFAULT_GPU, true);
    var ready := s;
    if s.tasks[t].phase.Waiting? {
      SelectMoves(s, t, gpu);
      ready := Next(s, Select(t, false));
    }
    ActResolves(ready, t, gpu);
    hide Enabled, Serial, Next, ChangesOf;
    Prepend(ready, act, []);
    assert [act] + [] == [act];
    actions := [act];
    if s.tasks[t].phase.Waiting? {
      Prepend(s, Select(t, false), [act]);
      actions := [Select(t, false)] + [act];
    }
  }

  // ---------- The theorem ----------

  /**
    An edit that is ready to be applied while another change of its GPU is unresolved: if it gets
    applied, confirmed and saved first, hardware and saved settings end up different.
   */
  lemma OverlapDiverges(s: State, e: nat, t: nat, gpu: string) returns (actions: seq<Action>)
    requires e in s.edits && s.edits[e].Prepared? && s.edits[e].gpu == gpu
    requires t in ChangesOf(s, gpu) && (forall x :: x in ChangesOf(s, gpu) ==> x == t)
    requires s.slot == Some(t) || s.tasks[t].channel != Open
    requires s.edits[e].next !in {s.tasks[t].previous, s.tasks[t].next}
    ensures SerialPath(s, actions) && Diverged(End(s, actions), gpu)
  {
    var u := UnusedNumber(s.tasks.Keys);
    var first := ApplyAndConfirm(s, e, u);
    var f := End(s, first);
    DoneLeavesChanges(s, e, u, f, NewTask(s.edits[e]).(channel := Sent(Confirm), phase := Done(true)), None, true, gpu);
    assert f.tasks[t] == SenderDropped(s, t);
    var second := FinishChange(f, t, gpu);
    Append(s, first, second);
    actions := first + second;
    var g := End(f, second);
    assert forall x :: x !in ChangesOf(g, gpu);
    assert ConfigOf(f.hardware, gpu) == s.edits[e].next && ConfigOf(f.config, gpu) == s.edits[e].next;
    hide ChangesOf, Running, SerialPath, End, EditsOf;
  }

  function DifferentFrom(a: GpuConfig, b: GpuConfig): (c: GpuConfig)
    ensures c != a && c != b
  {
    GpuConfig(DEFAULT, (if a.rest < b.rest then b.rest else a.rest) + 1)
  }

  lemma ReadStep(s: State, e: nat, next: GpuConfig, gpu: string)
    requires e in s.edits && s.edits[e] == Checked(gpu)
    ensures var f := Next(s, Read(e, next));
      && Enabled(s, Read(e, next)) && Serial(s, Read(e, next))
      && f == s.(edits := s.edits[e := Prepared(gpu, ConfigOf(s.config, gpu), next)])
  {
    var f := Next(s, Read(e, next));
    assert f.tasks == s.tasks by {
      forall t | t in s.tasks ensures NextTask(s, Read(e, next), t) == s.tasks[t] {}
    }
  }

  lemma AppliedChange(s: State, e: nat, t: nat, gpu: string)
    requires e in s.edits && s.edits[e].Prepared? && s.edits[e].gpu == gpu && t !in s.tasks
    requires ChangesOf(s, gpu) == map[]
    ensures var f := Next(s, Apply(e, t));
      && Enabled(s, Apply(e, t)) && Serial(s, Apply(e, t))
      && f.slot == Some(t) && t in f.tasks && f.tasks[t] == NewTask(s.edits[e]) && f.edits == s.edits - {e}
      && ChangesOf(f, gpu) == map[t := Change(s.edits[e].previous, s.edits[e].next)]
  {
    ChangesAfter(s, Apply(e, t), gpu);
    hide ChangesOf;
  }

  lemma BeginStep(s: State, e: nat, gpu: string)
    requires Enabled(s, Begin(e, gpu))
    ensures Next(s, Begin(e, gpu)) == s.(edits := s.edits[e := Checked(gpu)])
  {
    assert Next(s, Begin(e, gpu)).tasks == s.tasks by {
      forall t | t in s.tasks ensures NextTask(s, Begin(e, gpu), t) == s.tasks[t] {}
    }
  }

  /** An edit that has begun reads the settings while the GPU's one change is on its way to its end. */
  lemma ReadThenOverlap(s: State, e: nat, t: nat, gpu: string) returns (actions: seq<Action>)
    requires e in s.edits && s.edits[e] == Checked(gpu)
    requires t in ChangesOf(s, gpu) && (forall x :: x in ChangesOf(s, gpu) ==> x == t)
    requires s.slot == Some(t) || s.tasks[t].channel != Open
    ensures SerialPath(s, actions) && Diverged(End(s, actions), gpu)
  {
    var next := DifferentFrom(s.tasks[t].previous, s.tasks[t].next);
    ReadStep(s, e, next, gpu);
    var s1 := Next(s, Read(e, next));
    assert ChangesOf(s1, gpu) == ChangesOf(s, gpu);
    hide Next, ChangesOf;
    actions := OverlapDiverges(s1, e, t, gpu);
    Prepend(s, Read(e, next), actions);
    actions := [Read(e, next)] + actions;
  }

  /** Beginning an edit while an earlier change of the same GPU is unresolved can make them diverge. */
  lemma UnresolvedIsUnsafe(s: State, e: nat, gpu: string, t: nat) returns (actions: seq<Action>)
    requires SlotInv(s) && SettledOn(s, gpu) && Enabled(s, Begin(e, gpu)) && t in ChangesOf(s, gpu)
    ensures var f := Next(s, Begin(e, gpu)); SerialPath(f, actions) && Diverged(End(f, actions), gpu)
  {
    BeginStep(s, e, gpu);
    var s0 := Next(s, Begin(e, gpu));
    assert ChangesOf(s0, gpu) == ChangesOf(s, gpu);
    hide Next;
    actions := ReadThenOverlap(s0, e, t, gpu);
  }

  /** An edit is in progress and another one, ready to be applied, gets applied first. */
  lemma ApplyThenOverlap(s: State, e: nat, other: nat, gpu: string) returns (actions: seq<Action>)
    requires e != other && e in s.edits && s.edits[e] == Checked(gpu)
    requires other in s.edits && s.edits[other].Prepared? && s.edits[other].gpu == gpu
    requires ChangesOf(s, gpu) == map[]
    ensures SerialPath(s, actions) && Diverged(End(s, actions), gpu)
  {
    var t := UnusedNumber(s.tasks.Keys);
    AppliedChange(s, other, t, gpu);
    var s1 := Next(s, Apply(other, t));
    assert s1.edits[e] == Checked(gpu);
    hide Next, ChangesOf;
    actions := ReadThenOverlap(s1, e, t, gpu);
    Prepend(s, Apply(other, t), actions);
    actions := [Apply(other, t)] + actions;
  }

  /** So can beginning an edit while another edit of the same GPU is in progress. */
  lemma EditingIsUnsafe(s: State, e: nat, gpu: string, other: nat) returns (actions: seq<Action>)
    requires SlotInv(s) && SettledOn(s, gpu) && Enabled(s, Begin(e, gpu)) && other in EditsOf(s, gpu)
    ensures var f := Next(s, Begin(e, gpu)); SerialPath(f, actions) && Diverged(End(f, actions), gpu)
  {
    BeginStep(s, e, gpu);
    var s0 := Next(s, Begin(e, gpu));
    assert other in s0.edits && s0.edits[other] == s.edits[other] && s.edits[other].gpu == gpu;
    assert forall t :: t !in ChangesOf(s0, gpu) by {
      assert ChangesOf(s0, gpu) == ChangesOf(s, gpu);
    }
    assert ChangesOf(s0, gpu) == map[];
    if s.edits[other].Prepared? {
      hide Next, ChangesOf, EditsOf;
      actions := ApplyThenOverlap(s0, e, other, gpu);
    } else {
      ReadStep(s0, other, DEFAULT_GPU, gpu);
      var s1 := Next(s0, Read(other, DEFAULT_GPU));
      assert ChangesOf(s1, gpu) == map[];
      hide Next, ChangesOf, EditsOf;
      actions := ApplyThenOverlap(s1, e, other, gpu);
      Prepend(s0, Read(other, DEFAULT_GPU), actions);
      actions := [Read(other, DEFAULT_GPU)] + actions;
    }
  }

  /**
    Beginning an edit of a GPU is safe, whatever happens afterwards, exactly when no other edit of that
    GPU is in progress and no change of it is unresolved. The program checks less: only that no sender
    is stored.
   */
  lemma SafeToEditIff(s: State, e: nat, gpu: string)
    requires SlotInv(s) && SettledOn(s, gpu) && Enabled(s, Begin(e, gpu))
    ensures SafeToEdit(s, e, gpu) <==> Idle(s, gpu)
  {
    if Idle(s, gpu) {
      StepKeepsSettled(s, Begin(e, gpu), gpu);
      forall actions | SerialPath(Next(s, Begin(e, gpu)), actions)
        ensures InStep(End(Next(s, Begin(e, gpu)), actions), gpu)
      {
        SettledAlways(Next(s, Begin(e, gpu)), actions, gpu);
        SettledInStep(End(Next(s, Begin(e, gpu)), actions), gpu);
      }
    } else if t :| t in ChangesOf(s, gpu) {
      var actions := UnresolvedIsUnsafe(s, e, gpu, t);
      DivergedNotInStep(End(Next(s, Begin(e, gpu)), actions), gpu);
    } else {
      var other :| other in EditsOf(s, gpu);
      var actions := EditingIsUnsafe(s, e, gpu, other);
      DivergedNotInStep(End(Next(s, Begin(e, gpu)), actions), gpu);
    }
  }

  // ---------- Runs of the program in which it happens ----------

  lemma {:induction false} AppendPath(s: State, first: seq<Action>, second: seq<Action>)
    requires Path(s, first) && Path(End(s, first), second)
    ensures Path(s, first + second) && End(s, first + second) == End(End(s, first), second)
    decreases |first|
  {
    hide Enabled, Next;
    if first == [] {
      assert first + second == second;
    } else {
      AppendPath(Next(s, first[0]), first[1..], second);
      assert (first + second)[1..] == first[1..] + second;
    }
  }

  lemma {:induction false} PrependPath(s: State, a: Action, actions: seq<Action>)
    requires Enabled(s, a) && Path(Next(s, a), actions)
    ensures Path(s, [a] + actions) && End(s, [a] + actions) == End(Next(s, a), actions)
  {
    assert ([a] + actions)[1..] == actions;
    hide Enabled, Next;
  }

  lemma {:induction false} OneStep(s: State, a: Action)
    requires Enabled(s, a)
    ensures Path(s, [a]) && End(s, [a]) == Next(s, a)
    ensures Serial(s, a) ==> SerialPath(s, [a])
  {
    assert [a][1..] == [];
    hide Enabled, Next, Serial;
  }

  /** From the start: an edit of the GPU has begun, and been applied as task 0. */
  lemma PendingReached(start: State, gpu: string, next: GpuConfig) returns (actions: seq<Action>)
    requires Start(start)
    ensures SerialPath(start, actions)
    ensures var f, task := End(start, actions), NewTask(Prepared(gpu, ConfigOf(start.config, gpu), next));
      f.slot == Some(0) && f.edits == map[] && f.tasks == map[0 := task] && f.config == start.config
  {
    BeginStep(start, 0, gpu);
    var s1 := Next(start, Begin(0, gpu));
    ReadStep(s1, 0, next, gpu);
    var s2 := Next(s1, Read(0, next));
    assert Enabled(s2, Apply(0, 0)) && Serial(s2, Apply(0, 0)) && Serial(start, Begin(0, gpu));
    AfterApply(s2, 0, 0);
    var f := Next(s2, Apply(0, 0));
    assert f.tasks == map[0 := f.tasks[0]];
    hide Enabled, Serial, Next, Start, SerialPath, End;
    actions := PlayThree(start, Begin(0, gpu), Read(0, next), Apply(0, 0));
  }

  /**
    The program can leave a GPU configured differently from what is saved, with nothing left to
    resolve it: an edit is made and confirmed, and another one begins before the first is saved.
   */
  lemma DivergenceReached(start: State, gpu: string) returns (actions: seq<Action>)
    requires Start(start)
    ensures Path(start, actions) && Diverged(End(start, actions), gpu)
  {
    hide Next, Path, End, SerialPath, Diverged;
    var first := PendingReached(start, gpu, DEFAULT_GPU);
    var s1 := End(start, first);
    assert ChangeAt(s1, gpu, 0).Some?;
    SettledAtStart(start, gpu);
    SettledAlways(start, first, gpu);
    OutcomeAlways(start, first);
    assert Enabled(s1, Answered(Confirm)) && Serial(s1, Answered(Confirm)) && SlotInv(s1);
    hide Start, OutcomeInv, SettledOn, Serial;
    StepKeepsSettled(s1, Answered(Confirm), gpu);
    StepKeepsSlot(s1, Answered(Confirm));
    var s2 := Next(s1, Answered(Confirm));
    BeginsAgain(s1, gpu, 0);
    hide Enabled, SlotInv, ChangesOf, ChangeAt;
    var last := UnresolvedIsUnsafe(s2, 0, gpu, 0);
    PrependPath(s2, Begin(0, gpu), last);
    PrependPath(s1, Answered(Confirm), [Begin(0, gpu)] + last);
    AppendPath(start, first, [Answered(Confirm)] + ([Begin(0, gpu)] + last));
    actions := first + ([Answered(Confirm)] + ([Begin(0, gpu)] + last));
  }

  /** Confirming a change takes its sender, so that an edit may begin before the change is saved. */
  lemma BeginsAgain(s: State, gpu: string, t: nat)
    requires t in ChangesOf(s, gpu) && 0 !in s.edits
    ensures var f := Next(s, Answered(Confirm)); Enabled(f, Begin(0, gpu)) && t in ChangesOf(f, gpu)
  {
    ChangesAfter(s, Answered(Confirm), gpu);
    hide ChangesOf, NextTasks, NextEffects;
  }

  /** So can two edits that begin before either is applied. */
  lemma ConcurrentEditsReached(start: State, gpu: string) returns (actions: seq<Action>)
    requires Start(start)
    ensures Path(start, actions) && Diverged(End(start, actions), gpu)
    ensures |actions| >= 2 && actions[..2] == [Begin(0, gpu), Begin(1, gpu)]
  {
    SettledAtStart(start, gpu);
    StepKeepsSettled(start, Begin(0, gpu), gpu);
    StepKeepsSlot(start, Begin(0, gpu));
    BeginStep(start, 0, gpu);
    var s1 := Next(start, Begin(0, gpu));
    assert Enabled(s1, Begin(1, gpu)) && 0 in EditsOf(s1, gpu);
    hide Enabled, Next, SlotInv, SettledOn, Path, End, EditsOf, Diverged, Start;
    var last := EditingIsUnsafe(s1, 1, gpu, 0);
    PrependPath(s1, Begin(1, gpu), last);
    PrependPath(start, Begin(0, gpu), [Begin(1, gpu)] + last);
    actions := [Begin(0, gpu)] + ([Begin(1, gpu)] + last);
  }

  // ---------- Confirmations that get lost ----------

  /** The change is on its way to being saved and nothing can take it back. */
  ghost predicate BoundToSave(task: Task) {
    && task.channel == Sent(Confirm)
    && match task.phase
      case Waiting => !task.timerElapsed
      case Committing => true
      case Reverting => false
      case Finishing(saved) => saved
      case Done(saved) => saved
  }

  lemma StepKeepsBound(s: State, a: Action, t: nat)
    requires SlotInv(s) && t in s.tasks && BoundToSave(s.tasks[t]) && Enabled(s, a) && a != Elapse(t)
    ensures t in Next(s, a).tasks && BoundToSave(Next(s, a).tasks[t])
  {
    assert Next(s, a).tasks[t] == NextTask(s, a, t);
  }

  lemma {:induction false} PathKeepsBound(s: State, actions: seq<Action>, t: nat)
    requires SlotInv(s) && t in s.tasks && BoundToSave(s.tasks[t]) && Path(s, actions) && Elapse(t) !in actions
    ensures t in End(s, actions).tasks && BoundToSave(End(s, actions).tasks[t])
    decreases |actions|
  {
    if actions != [] {
      StepKeepsBound(s, actions[0], t);
      StepKeepsSlot(s, actions[0]);
      hide SlotInv, BoundToSave, Next, Enabled;
      PathKeepsBound(Next(s, actions[0]), actions[1..], t);
    }
  }

  lemma PhaseAfter(s: State, a: Action, t: nat)
    requires Enabled(s, a) && t in s.tasks
    ensures t in Next(s, a).tasks && Next(s, a).tasks[t].phase == NextPhase(s, a, t)
  {
    assert Next(s, a).tasks[t] == NextTask(s, a, t);
  }

  /** The timer wakes the task, although Confirm was sent to it, and it takes the change back. */
  lemma TimerWins(s: State, t: nat) returns (actions: seq<Action>)
    requires t in s.tasks && s.tasks[t].phase.Waiting? && s.tasks[t].timerElapsed
    ensures Path(s, actions) && Elapse(t) !in actions
    ensures t in End(s, actions).tasks && End(s, actions).tasks[t].phase == Done(false)
  {
    hide Next, SerialPath, Path, End;
    var select, act, clear := Select(t, true), Act(t, DEFAULT_GPU, true), Clear(t);
    PhaseAfter(s, select, t);
    var s1 := Next(s, select);
    PhaseAfter(s1, act, t);
    var s2 := Next(s1, act);
    PhaseAfter(s2, clear, t);
    assert Serial(s, select) && Serial(s1, act) && Serial(s2, clear);
    hide Enabled, Serial, NextPhase;
    actions := PlayThree(s, select, act, clear);
  }

  /**
    A change whose Confirm was accepted while it waits: it ends saved in every continuation in which
    its timer does not run out any more, exactly when the timer has not run out already.
   */
  lemma {:induction false} ConfirmSavedIff(s: State, t: nat)
    requires SlotInv(s) && t in s.tasks && s.tasks[t].phase.Waiting? && s.tasks[t].channel == Sent(Confirm)
    ensures (forall actions :: Path(s, actions) && Elapse(t) !in actions ==> EndsSaved(s, actions, t))
       <==> !s.tasks[t].timerElapsed
  {
    if s.tasks[t].timerElapsed {
      var actions := TimerWins(s, t);
      assert !EndsSaved(s, actions, t);
    } else {
      forall actions | Path(s, actions) && Elapse(t) !in actions ensures EndsSaved(s, actions, t) {
        PathKeepsBound(s, actions, t);
      }
    }
  }

  ghost predicate EndsSaved(s: State, actions: seq<Action>, t: nat)
    requires Path(s, actions)
  {
    t in End(s, actions).tasks && (End(s, actions).tasks[t].phase.Done? ==> End(s, actions).tasks[t].phase.saved)
  }

  lemma ElapsedStep(s: State, t: nat)
    requires t in s.tasks && s.tasks[t].phase.Waiting?
    ensures Enabled(s, Elapse(t)) && Next(s, Elapse(t)).slot == s.slot
    ensures t in Next(s, Elapse(t)).tasks && Next(s, Elapse(t)).tasks[t] == s.tasks[t].(timerElapsed := true)
  {
    assert NextTask(s, Elapse(t), t) == s.tasks[t].(timerElapsed := true);
  }

  lemma ConfirmedStep(s: State, t: nat)
    requires t in s.tasks && s.tasks[t].phase.Waiting? && s.slot == Some(t)
    ensures Enabled(s, Answered(Confirm)) && t in Next(s, Answered(Confirm)).tasks
    ensures Next(s, Answered(Confirm)).tasks[t] == s.tasks[t].(channel := Sent(Confirm))
  {
    assert NextTask(s, Answered(Confirm), t) == s.tasks[t].(channel := Sent(Confirm));
  }

  /** A run in which a change ends taken back although its Confirm was accepted. */
  lemma LostConfirmReached(start: State, gpu: string, next: GpuConfig) returns (actions: seq<Action>)
    requires Start(start)
    ensures Path(start, actions)
    ensures var f := End(start, actions);
      0 in f.tasks && f.tasks[0].channel == Sent(Confirm) && f.tasks[0].phase == Done(false)
  {
    hide Next, Path, End, SerialPath;
    var first := PendingReached(start, gpu, next);
    var s1 := End(start, first);
    OutcomeAlways(start, first);
    assert SlotInv(s1);
    hide Start, OutcomeInv, SlotInv;
    ElapsedStep(s1, 0);
    StepKeepsSlot(s1, Elapse(0));
    var s2 := Next(s1, Elapse(0));
    ConfirmedStep(s2, 0);
    StepKeepsSlot(s2, Answered(Confirm));
    var s3 := Next(s2, Answered(Confirm));
    hide Enabled;
    var last := TimerWins(s3, 0);
    SentStays(s3, last, 0);
    PrependPath(s2, Answered(Confirm), last);
    PrependPath(s1, Elapse(0), [Answered(Confirm)] + last);
    AppendPath(start, first, [Elapse(0)] + ([Answered(Confirm)] + last));
    actions := first + ([Elapse(0)] + ([Answered(Confirm)] + last));
  }

  /** An answer that was sent stays sent. */
  lemma {:induction false} SentStays(s: State, actions: seq<Action>, t: nat)
    requires SlotInv(s) && t in s.tasks && s.tasks[t].channel.Sent? && Path(s, actions)
    ensures t in End(s, actions).tasks && End(s, actions).tasks[t].channel == s.tasks[t].channel
    decreases |actions|
  {
    if actions != [] {
      assert Next(s, actions[0]).tasks[t] == NextTask(s, actions[0], t);
      StepKeepsSlot(s, actions[0]);
      assert NextChannel(s, actions[0], t) == s.tasks[t].channel;
      hide SlotInv, Next, Enabled;
      SentStays(Next(s, actions[0]), actions[1..], t);
    }
  }

  // ---------- Resetting the clocks while a change is pending ----------

  // A request to reset the clocks cleans the hardware before the check that refuses it.

  lemma CleanStep(s: State, gpu: string)
    ensures var f := Next(s, CleanClocks(gpu));
      f == s.(hardware := s.hardware[gpu := ConfigOf(s.hardware, gpu).(clocks := DEFAULT)])
  {
    assert Next(s, CleanClocks(gpu)).tasks == s.tasks by {
      forall t | t in s.tasks ensures NextTask(s, CleanClocks(gpu), t) == s.tasks[t] {}
    }
  }

  /** The change can still be confirmed, or was and is not saved yet. */
  predicate CanStillSave(task: Task) {
    WillSave(task) || (task.phase.Waiting? && task.channel.Open?)
  }

  /** The change that is pending gets saved. */
  lemma SaveAfterReset(s: State, gpu: string, t: nat) returns (actions: seq<Action>)
    requires SlotInv(s) && t in ChangesOf(s, gpu) && CanStillSave(s.tasks[t])
    requires forall x :: x in ChangesOf(s, gpu) ==> x == t
    ensures SerialPath(s, actions)
    ensures var f := End(s, actions);
      && (forall x :: x !in ChangesOf(f, gpu))
      && ConfigOf(f.hardware, gpu) == ConfigOf(s.hardware, gpu) && ConfigOf(f.config, gpu) == s.tasks[t].next
  {
    if WillSave(s.tasks[t]) {
      actions := FinishChange(s, t, gpu);
    } else {
      var confirm := Answered(Confirm);
      ConfirmedStep(s, t);
      ChangesAfter(s, confirm, gpu);
      assert Serial(s, confirm);
      assert Next(s, confirm).hardware == s.hardware;
      hide Next, ChangesOf, Enabled, Serial;
      actions := FinishChange(Next(s, confirm), t, gpu);
      Prepend(s, confirm, actions);
      actions := [confirm] + actions;
    }
  }

  /** The GPU's one change is bound to be taken back, whatever the hardware is like until then. */
  ghost predicate TakenBack(s: State, gpu: string, t: nat) {
    && SlotInv(s) && t in s.tasks && !CanStillSave(s.tasks[t])
    && (forall e :: e !in EditsOf(s, gpu))
    && ChangesOf(s, gpu) == map[t := Change(ConfigOf(s.config, gpu), s.tasks[t].next)]
  }

  lemma StaysLost(s: State, a: Action, t: nat)
    requires SlotInv(s) && Enabled(s, a) && t in s.tasks && !CanStillSave(s.tasks[t])
    ensures t in Next(s, a).tasks && !CanStillSave(Next(s, a).tasks[t])
    ensures Next(s, a).tasks[t].next == s.tasks[t].next
  {
    assert Next(s, a).tasks[t] == NextTask(s, a, t);
  }

  lemma TakingBackSettles(s: State, a: Action, gpu: string, t: nat)
    requires TakenBack(s, gpu, t) && Enabled(s, a) && Serial(s, a) && a.Act? && a.task == t
    ensures SettledOn(Next(s, a), gpu)
  {
    ChangesAfter(s, a, gpu);
    EditsAfter(s, a, gpu);
    assert t in ChangesOf(s, gpu) && ChangesOf(s, gpu)[t] == Change(s.tasks[t].previous, s.tasks[t].next);
    hide ChangesOf, EditsOf, NextTasks, NextEdits, NextEffects;
  }

  lemma ActsElsewhere(s: State, a: Action, gpu: string)
    requires Enabled(s, a) && a.Act? && a.task !in ChangesOf(s, gpu)
    ensures s.tasks[a.task].gpu != gpu
  {}

  lemma EditsElsewhere(s: State, e: nat, gpu: string)
    requires e in s.edits && e !in EditsOf(s, gpu)
    ensures s.edits[e].gpu != gpu
  {}

  lemma StepKeepsTakenBack(s: State, a: Action, gpu: string, t: nat)
    requires TakenBack(s, gpu, t) && Enabled(s, a) && Serial(s, a) && !(a.Act? && a.task == t)
    ensures TakenBack(Next(s, a), gpu, t)
  {
    StepKeepsSlot(s, a);
    StaysLost(s, a, t);
    ChangesAfter(s, a, gpu);
    EditsAfter(s, a, gpu);
    assert t in ChangesOf(s, gpu);
    if a.Act? { ActsElsewhere(s, a, gpu); }
    if a.Apply? || a.ApplyFails? || a.Read? || a.Abort? { EditsElsewhere(s, a.edit, gpu); }
    assert a.Act? ==> ChangesOf(s, gpu) - {a.task} == ChangesOf(s, gpu);
    hide ChangesOf, EditsOf, NextTasks, NextEdits, NextEffects, SlotInv, CanStillSave;
  }

  lemma {:induction false} TakenBackOrSettled(s: State, actions: seq<Action>, gpu: string, t: nat)
    requires SerialPath(s, actions) && TakenBack(s, gpu, t)
    ensures !Diverged(End(s, actions), gpu)
    decreases |actions|
  {
    if actions == [] {
      assert t in ChangesOf(s, gpu);
    } else if actions[0].Act? && actions[0].task == t {
      TakingBackSettles(s, actions[0], gpu, t);
      hide SettledOn, TakenBack, Enabled, Serial, Next;
      SettledNotDiverged(Next(s, actions[0]), actions[1..], gpu);
    } else {
      StepKeepsTakenBack(s, actions[0], gpu, t);
      hide TakenBack, Enabled, Serial, Next, Diverged;
      TakenBackOrSettled(Next(s, actions[0]), actions[1..], gpu, t);
    }
  }

  lemma {:induction false} SettledNotDiverged(s: State, actions: seq<Action>, gpu: string)
    requires SerialPath(s, actions) && SettledOn(s, gpu)
    ensures !Diverged(End(s, actions), gpu)
  {
    SettledAlways(s, actions, gpu);
    SettledInStep(End(s, actions), gpu);
    hide SettledOn, InStep;
    if Diverged(End(s, actions), gpu) { DivergedNotInStep(End(s, actions), gpu); }
  }

  /** Some serial continuation leaves the GPU configured differently from what is saved, for good. */
  ghost predicate CanDiverge(s: State, gpu: string) {
    exists actions :: SerialPath(s, actions) && Diverged(End(s, actions), gpu)
  }

  /**
    A reset that is refused because the GPU has a pending change itself: hardware and saved settings
    can end up different exactly when the change has clock settings and can still be saved.
   */
  lemma ResetWhilePendingIff(s: State, gpu: string, t: nat)
    requires SlotInv(s) && SettledOn(s, gpu) && t in ChangesOf(s, gpu)
    ensures CanDiverge(Next(s, CleanClocks(gpu)), gpu) <==>
      s.tasks[t].next.clocks != DEFAULT && CanStillSave(s.tasks[t])
  {
    var f := Next(s, CleanClocks(gpu));
    CleanStep(s, gpu);
    assert ChangesOf(f, gpu) == ChangesOf(s, gpu) && EditsOf(f, gpu) == EditsOf(s, gpu);
    assert ChangesOf(s, gpu)[t] == Change(s.tasks[t].previous, s.tasks[t].next);
    hide Next;
    if s.tasks[t].next.clocks == DEFAULT {
      assert ConfigOf(f.hardware, gpu) == ConfigOf(s.hardware, gpu);
      forall actions | SerialPath(f, actions) ensures !Diverged(End(f, actions), gpu) {
        SettledNotDiverged(f, actions, gpu);
      }
    } else if CanStillSave(s.tasks[t]) {
      hide SlotInv, ChangesOf, EditsOf;
      var actions := SaveAfterReset(f, gpu, t);
      assert Diverged(End(f, actions), gpu);
    } else {
      assert forall x :: x in ChangesOf(s, gpu) ==> x == t;
      assert ChangesOf(s, gpu) == map[t := Change(ConfigOf(s.config, gpu), s.tasks[t].next)];
      assert TakenBack(f, gpu, t);
      forall actions | SerialPath(f, actions) ensures !Diverged(End(f, actions), gpu) {
        TakenBackOrSettled(f, actions, gpu, t);
      }
    }
  }

  /** The hardware of a GPU without change was cleaned. */
  ghost predicate Cleaned(s: State, gpu: string, hardware: GpuConfig, config: GpuConfig) {
    && (forall x :: x !in ChangesOf(s, gpu))
    && ConfigOf(s.hardware, gpu) == hardware && ConfigOf(s.config, gpu) == config && hardware.clocks == DEFAULT
  }

  lemma StepKeepsCleaned(s: State, a: Action, gpu: string, hardware: GpuConfig, config: GpuConfig)
    requires Cleaned(s, gpu, hardware, config) && Enabled(s, a) && !a.Apply? && !a.ApplyFails?
    ensures Cleaned(Next(s, a), gpu, hardware, config)
  {
    ChangesAfter(s, a, gpu);
    if a.Act? { ActsElsewhere(s, a, gpu); }
    hide ChangesOf, NextTasks, NextEdits, NextEffects;
  }

  /** Only an edit of the GPU can undo the clean-up. */
  predicate AppliesNothing(actions: seq<Action>) {
    forall a :: a in actions ==> !a.Apply? && !a.ApplyFails?
  }

  lemma {:induction false} StaysCleaned(
      s: State, actions: seq<Action>, gpu: string, hardware: GpuConfig, config: GpuConfig)
    requires Cleaned(s, gpu, hardware, config) && Path(s, actions) && AppliesNothing(actions)
    ensures Cleaned(End(s, actions), gpu, hardware, config)
    decreases |actions|
  {
    if actions != [] {
      assert actions[0] in actions;
      assert forall a :: a in actions[1..] ==> a in actions;
      StepKeepsCleaned(s, actions[0], gpu, hardware, config);
      hide Cleaned, Next, Enabled;
      StaysCleaned(Next(s, actions[0]), actions[1..], gpu, hardware, config);
    }
  }

  /**
    A reset that is refused because another GPU has a pending change: no edit of the reset GPU can
    begin, and until one is applied its hardware differs from what is saved exactly when clock settings
    are saved for it.
   */
  lemma {:induction false} ResetOtherGpuIff(s: State, gpu: string, t: nat, actions: seq<Action>)
    requires SettledOn(s, gpu) && (forall x :: x !in ChangesOf(s, gpu)) && s.slot == Some(t)
    requires Path(Next(s, CleanClocks(gpu)), actions) && AppliesNothing(actions)
    ensures forall e :: !Enabled(Next(s, CleanClocks(gpu)), Begin(e, gpu))
    ensures Diverged(End(Next(s, CleanClocks(gpu)), actions), gpu) <==> ConfigOf(s.config, gpu).clocks != DEFAULT
  {
    var f := Next(s, CleanClocks(gpu));
    CleanStep(s, gpu);
    assert ChangesOf(f, gpu) == ChangesOf(s, gpu);
    hide Next, ChangesOf, EditsOf;
    StaysCleaned(f, actions, gpu, ConfigOf(f.hardware, gpu), ConfigOf(f.config, gpu));
  }

  /** A run in which a refused reset leaves the hardware of a GPU without the clock settings saved for it. */
  lemma LostClocksReached(start: State, other: string, gpu: string, next: GpuConfig) returns (actions: seq<Action>)
    requires Start(start) && other != gpu && ConfigOf(start.config, gpu).clocks != DEFAULT
    ensures Path(start, actions) && Diverged(End(start, actions), gpu)
  {
    hide Next, Path, End, SerialPath, Diverged;
    var first := PendingReached(start, other, next);
    var s := End(start, first);
    SettledAtStart(start, gpu);
    SettledAlways(start, first, gpu);
    assert forall x :: x !in ChangesOf(s, gpu);
    hide SettledOn, ChangesOf;
    assert Enabled(s, CleanClocks(gpu));
    OneStep(s, CleanClocks(gpu));
    EndOfNone(Next(s, CleanClocks(gpu)));
    ResetOtherGpuIff(s, gpu, 0, []);
    AppendPath(start, first, [CleanClocks(gpu)]);
    actions := first + [CleanClocks(gpu)];
  }

  lemma {:induction false} EndOfNone(s: State)
    ensures Path(s, []) && End(s, []) == s
  {}
}
