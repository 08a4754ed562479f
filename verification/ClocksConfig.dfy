/** The clock settings of a GPU configuration and the commands that edit them. */
module ClocksConfig {
  import opened Wrappers

  datatype ClockspeedType =
    | MaxCoreClock | MaxMemoryClock | MaxVoltage
    | MinCoreClock | MinMemoryClock | MinVoltage
    | VoltageOffset
    | GpuClockOffset(pstate: nat)
    | MemClockOffset(pstate: nat)
    | Reset

  datatype Command = Command(kind: ClockspeedType, value: Option<int>)

  datatype ClocksConfiguration = ClocksConfiguration(
    minCoreClock: Option<int>, minMemoryClock: Option<int>, minVoltage: Option<int>,
    maxCoreClock: Option<int>, maxMemoryClock: Option<int>, maxVoltage: Option<int>,
    gpuClockOffsets: map<nat, int>, memClockOffsets: map<nat, int>,
    voltageOffset: Option<int>)

  const DEFAULT := ClocksConfiguration(None, None, None, None, None, None, map[], map[], None)

  function PutOrRemove(m: map<nat, int>, key: nat, value: Option<int>): map<nat, int> {
    if value.Some? then m[key := value.value] else m - {key}
  }

  function Applied(c: ClocksConfiguration, command: Command): ClocksConfiguration {
    var value := command.value;
    match command.kind
    case MaxCoreClock => c.(maxCoreClock := value)
    case MaxMemoryClock => c.(maxMemoryClock := value)
    case MaxVoltage => c.(maxVoltage := value)
    case MinCoreClock => c.(minCoreClock := value)
    case MinMemoryClock => c.(minMemoryClock := value)
    case MinVoltage => c.(minVoltage := value)
    case VoltageOffset => c.(voltageOffset := value)
    case GpuClockOffset(pstate) => c.(gpuClockOffsets := PutOrRemove(c.gpuClockOffsets, pstate, value))
    case MemClockOffset(pstate) => c.(memClockOffsets := PutOrRemove(c.memClockOffsets, pstate, value))
    case Reset => DEFAULT
  }

  function AppliedAll(c: ClocksConfiguration, commands: seq<Command>): ClocksConfiguration {
    if commands == [] then c
    else Applied(AppliedAll(c, commands[..|commands| - 1]), commands[|commands| - 1])
  }

  class Gpu {
    var clocks: ClocksConfiguration

    constructor ()
      ensures clocks == DEFAULT
    {
      clocks := DEFAULT;
    }

    predicate IsCoreClocksUsed()
      reads this
    {
      clocks != DEFAULT
    }

    method ApplyClocksCommand(command: Command)
      modifies this
      ensures clocks == Applied(old(clocks), command)
      ensures command.kind.Reset? ==> !IsCoreClocksUsed()
    {
      var value := command.value;
      match command.kind {
        case MaxCoreClock => clocks := clocks.(maxCoreClock := value);
        case MaxMemoryClock => clocks := clocks.(maxMemoryClock := value);
        case MaxVoltage => clocks := clocks.(maxVoltage := value);
        case MinCoreClock => clocks := clocks.(minCoreClock := value);
        case MinMemoryClock => clocks := clocks.(minMemoryClock := value);
        case MinVoltage => clocks := clocks.(minVoltage := value);
        case VoltageOffset => clocks := clocks.(voltageOffset := value);
        case GpuClockOffset(pstate) =>
          if value.Some? {
            clocks := clocks.(gpuClockOffsets := clocks.gpuClockOffsets[pstate := value.value]);
          } else {
            clocks := clocks.(gpuClockOffsets := clocks.gpuClockOffsets - {pstate});
          }
        case MemClockOffset(pstate) =>
          if value.Some? {
            clocks := clocks.(memClockOffsets := clocks.memClockOffsets[pstate := value.value]);
          } else {
            clocks := clocks.(memClockOffsets := clocks.memClockOffsets - {pstate});
          }
        case Reset => clocks := DEFAULT;
      }
    }

    method BatchSetClocksValue(commands: seq<Command>)
      modifies this
      ensures clocks == AppliedAll(old(clocks), commands)
    {
      for i := 0 to |commands|
        invariant clocks == AppliedAll(old(clocks), commands[..i])
      {
        assert commands[..i + 1][..i] == commands[..i];
        ApplyClocksCommand(commands[i]);
      }
      assert commands[..|commands|] == commands;
    }
  }

  // ---------- The meaning of a batch ----------

  function Lookup(m: map<nat, int>, key: nat): Option<int> {
    if key in m then Some(m[key]) else None
  }

  /** The value of one setting; each performance state's offset is a setting of its own. */
  function Get(c: ClocksConfiguration, setting: ClockspeedType): Option<int>
    requires !setting.Reset?
  {
    match setting
    case MaxCoreClock => c.maxCoreClock
    case MaxMemoryClock => c.maxMemoryClock
    case MaxVoltage => c.maxVoltage
    case MinCoreClock => c.minCoreClock
    case MinMemoryClock => c.minMemoryClock
    case MinVoltage => c.minVoltage
    case VoltageOffset => c.voltageOffset
    case GpuClockOffset(pstate) => Lookup(c.gpuClockOffsets, pstate)
    case MemClockOffset(pstate) => Lookup(c.memClockOffsets, pstate)
  }

  predicate Touches(command: Command, setting: ClockspeedType) {
    command.kind == setting || command.kind.Reset?
  }

  lemma AppliedOne(c: ClocksConfiguration, command: Command, setting: ClockspeedType)
    requires !setting.Reset?
    ensures Get(Applied(c, command), setting) ==
      if command.kind == setting then command.value
      else if command.kind.Reset? then None
      else Get(c, setting)
  {}

  /** The last command that names the setting or resets everything decides its value. */
  lemma {:induction false} LastWriterWins(c: ClocksConfiguration, commands: seq<Command>, setting: ClockspeedType,
      last: nat)
    requires !setting.Reset?
    requires last < |commands| && Touches(commands[last], setting)
    requires forall k :: last < k < |commands| ==> !Touches(commands[k], setting)
    ensures Get(AppliedAll(c, commands), setting) ==
      if commands[last].kind.Reset? then None else commands[last].value
  {
    var n := |commands| - 1;
    AppliedOne(AppliedAll(c, commands[..n]), commands[n], setting);
    if last < n {
      LastWriterWins(c, commands[..n], setting, last);
    }
  }

  /** A setting that no command names, in a batch without reset, keeps its value. */
  lemma {:induction false} UntouchedKept(c: ClocksConfiguration, commands: seq<Command>, setting: ClockspeedType)
    requires !setting.Reset?
    requires forall k :: 0 <= k < |commands| ==> !Touches(commands[k], setting)
    ensures Get(AppliedAll(c, commands), setting) == Get(c, setting)
  {
    if commands != [] {
      var n := |commands| - 1;
      AppliedOne(AppliedAll(c, commands[..n]), commands[n], setting);
      UntouchedKept(c, commands[..n], setting);
    }
  }

  /** A configuration is determined by its settings. */
  lemma SameSettings(c: ClocksConfiguration, e: ClocksConfiguration)
    ensures c == e <==> forall setting: ClockspeedType :: !setting.Reset? ==> Get(c, setting) == Get(e, setting)
  {
    if forall setting: ClockspeedType :: !setting.Reset? ==> Get(c, setting) == Get(e, setting) {
      assert Get(c, MaxCoreClock) == Get(e, MaxCoreClock);
      assert Get(c, MaxMemoryClock) == Get(e, MaxMemoryClock);
      assert Get(c, MaxVoltage) == Get(e, MaxVoltage);
      assert Get(c, MinCoreClock) == Get(e, MinCoreClock);
      assert Get(c, MinMemoryClock) == Get(e, MinMemoryClock);
      assert Get(c, MinVoltage) == Get(e, MinVoltage);
      assert Get(c, VoltageOffset) == Get(e, VoltageOffset);
      forall p: nat
        ensures Lookup(c.gpuClockOffsets, p) == Lookup(e.gpuClockOffsets, p)
        ensures Lookup(c.memClockOffsets, p) == Lookup(e.memClockOffsets, p)
      {
        assert Get(c, GpuClockOffset(p)) == Get(e, GpuClockOffset(p));
        assert Get(c, MemClockOffset(p)) == Get(e, MemClockOffset(p));
      }
      SameLookups(c.gpuClockOffsets, e.gpuClockOffsets);
      SameLookups(c.memClockOffsets, e.memClockOffsets);
    }
  }

  lemma SameLookups(m: map<nat, int>, r: map<nat, int>)
    requires forall p: nat :: Lookup(m, p) == Lookup(r, p)
    ensures m == r
  {
    forall p: nat ensures p in m <==> p in r { assert Lookup(m, p) == Lookup(r, p); }
    forall p | p in m ensures m[p] == r[p] { assert Lookup(m, p) == Lookup(r, p); }
  }
}
