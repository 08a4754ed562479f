/**
  Clock offsets of an Nvidia GPU. Some driver versions always report an offset of zero, so the
  program keeps its own record of what it applied and uses it for resetting and for reporting.
 */
module NvidiaOffsets {
  import opened Wrappers

  datatype Clock = Graphics | Memory

  type Key = (Clock, nat)

  /**
    What the driver offers: the supported performance states if it lists them, the offsets it can
    read, whether it reports them truthfully or always as zero, which numbers name a performance
    state, and which of the successive writes it accepts.
   */
  datatype Driver = Driver(supported: Option<seq<nat>>, readable: set<Key>, truthful: bool,
                           pstates: set<nat>, accepts: nat -> bool)

  /** Offsets in the hardware, the program's record of them, and the number of writes so far. */
  datatype State = State(hardware: map<Key, int>, applied: map<Key, int>, writes: nat)

  function Offset(s: State, k: Key): int {
    if k in s.hardware then s.hardware[k] else 0
  }

  function Reported(d: Driver, s: State, k: Key): int {
    if d.truthful then Offset(s, k) else 0
  }

  // ---------- The operations ----------

  function Written(d: Driver, s: State, k: Key, offset: int): State {
    s.(hardware := if d.accepts(s.writes) then s.hardware[k := offset] else s.hardware, writes := s.writes + 1)
  }

  predicate NeedsReset(d: Driver, s: State, k: Key) {
    k in d.readable && (Reported(d, s, k) != 0 || (k in s.applied && s.applied[k] != 0))
  }

  /** State after the operation, and whether it succeeded. */
  type Step = (State, bool)

  function Forget(s: State, k: Key): State {
    s.(applied := s.applied - {k})
  }

  function CleanKey(d: Driver, s: State, k: Key): Step {
    if !NeedsReset(d, s, k) then (Forget(s, k), true)
    else if !d.accepts(s.writes) then (Written(d, s, k, 0), false)
    else (Forget(Written(d, s, k, 0), k), true)
  }

  function CleanKeys(d: Driver, s: State, keys: seq<Key>): Step {
    if keys == [] then (s, true)
    else
      var before := CleanKeys(d, s, keys[..|keys| - 1]);
      if !before.1 then before else CleanKey(d, before.0, keys[|keys| - 1])
  }

  /** Per performance state first the graphics, then the memory clock. */
  function KeysOf(pstates: seq<nat>): seq<Key> {
    if pstates == [] then [] else KeysOf(pstates[..|pstates| - 1]) + KeysAt(pstates[|pstates| - 1])
  }

  function KeysAt(pstate: nat): seq<Key> {
    [(Graphics, pstate), (Memory, pstate)]
  }

  function Cleanup(d: Driver, s: State): Step {
    if d.supported.None? then (s, true) else CleanKeys(d, s, KeysOf(d.supported.value))
  }

  type Offsets = seq<(nat, int)>

  function ApplyEntry(d: Driver, s: State, clock: Clock, entry: (nat, int)): Step {
    if entry.0 !in d.pstates then (s, false)
    else
      var k := (clock, entry.0);
      var w := Written(d, s, k, entry.1);
      if !d.accepts(s.writes) then (w, false) else (w.(applied := w.applied[k := entry.1]), true)
  }

  function ApplyEntries(d: Driver, s: State, clock: Clock, entries: Offsets): Step {
    if entries == [] then (s, true)
    else
      var before := ApplyEntries(d, s, clock, entries[..|entries| - 1]);
      if !before.1 then before else ApplyEntry(d, before.0, clock, entries[|entries| - 1])
  }

  datatype Config = Config(gpu: Offsets, mem: Offsets)

  function Apply(d: Driver, s: State, config: Config): Step {
    var cleaned := Cleanup(d, s);
    if !cleaned.1 then cleaned
    else
      var gpu := ApplyEntries(d, cleaned.0, Graphics, config.gpu);
      if !gpu.1 then gpu else ApplyEntries(d, gpu.0, Memory, config.mem)
  }

  /** The offset shown to the user. */
  function Shown(d: Driver, s: State, k: Key): int {
    if Reported(d, s, k) == 0 && k in s.applied then s.applied[k] else Reported(d, s, k)
  }

  class NvidiaGpu {
    const driver: Driver
    var hardware: map<Key, int>
    var applied: map<Key, int>
    var writes: nat

    ghost function Contents(): State
      reads this
    {
      State(hardware, applied, writes)
    }

    constructor (driver: Driver, hardware: map<Key, int>)
      ensures this.driver == driver && Contents() == State(hardware, map[], 0)
    {
      this.driver, this.hardware, applied, writes := driver, hardware, map[], 0;
    }

    method SetClockOffset(k: Key, offset: int) returns (ok: bool)
      modifies this`hardware, this`writes
      ensures Contents() == Written(driver, old(Contents()), k, offset) && ok == driver.accepts(old(writes))
    {
      ok := driver.accepts(writes);
      if ok {
        hardware := hardware[k := offset];
      }
      writes := writes + 1;
    }

    method ClockOffset(k: Key) returns (offset: Option<int>)
      ensures offset == if k in driver.readable then Some(Reported(driver, Contents(), k)) else None
    {
      offset := if k !in driver.readable then None
                else if driver.truthful && k in hardware then Some(hardware[k]) else Some(0);
    }

    method CleanupClocks() returns (ok: bool)
      modifies this
      ensures (Contents(), ok) == Cleanup(driver, old(Contents()))
    {
      ok := true;
      if driver.supported.None? { return; }
      hide CleanKey, KeysAt;
      var pstates := driver.supported.value;
      for i := 0 to |pstates|
        invariant ok && (Contents(), ok) == CleanKeys(driver, old(Contents()), KeysOf(pstates[..i]))
      {
        assert pstates[..i + 1][..i] == pstates[..i];
        CleanKeysAppend(driver, old(Contents()), KeysOf(pstates[..i]), KeysAt(pstates[i]));
        ok := CleanupPstate(pstates[i]);
        if !ok {
          StopsAtPstate(driver, old(Contents()), pstates, i + 1);
          return;
        }
      }
      assert pstates[..|pstates|] == pstates;
    }

    method CleanupPstate(pstate: nat) returns (ok: bool)
      modifies this
      ensures (Contents(), ok) == CleanKeys(driver, old(Contents()), KeysAt(pstate))
    {
      var keys: seq<Key> := [(Graphics, pstate), (Memory, pstate)];
      assert keys[..1] == [keys[0]] && keys[..1][..0] == [] && keys == KeysAt(pstate);
      ok := CleanupKey(keys[0]);
      assert (Contents(), ok) == CleanKeys(driver, old(Contents()), keys[..1]);
      if ok {
        ok := CleanupKey(keys[1]);
      }
    }

    method CleanupKey(k: Key) returns (ok: bool)
      modifies this
      ensures (Contents(), ok) == CleanKey(driver, old(Contents()), k)
    {
      ok := true;
      var current := ClockOffset(k);
      if current.Some? {
        if current.value != 0 || (k in applied && applied[k] != 0) {
          ok := SetClockOffset(k, 0);
          if !ok { return; }
        }
      }
      applied := applied - {k};
    }

    method ApplyOffsets(clock: Clock, entries: Offsets) returns (ok: bool)
      modifies this
      ensures (Contents(), ok) == ApplyEntries(driver, old(Contents()), clock, entries)
    {
      ok := true;
      for i := 0 to |entries|
        invariant ok && (Contents(), ok) == ApplyEntries(driver, old(Contents()), clock, entries[..i])
      {
        assert entries[..i + 1][..i] == entries[..i];
        var (pstate, offset) := entries[i];
        if pstate in driver.pstates {
          ok := SetClockOffset((clock, pstate), offset);
          if ok {
            applied := applied[(clock, pstate) := offset];
          }
        } else {
          ok := false;
        }
        if !ok {
          ApplyStopsEarly(driver, old(Contents()), clock, entries, i + 1);
          return;
        }
      }
      assert entries[..|entries|] == entries;
    }

    method ApplyConfig(config: Config) returns (ok: bool)
      modifies this
      ensures (Contents(), ok) == Apply(driver, old(Contents()), config)
    {
      ok := CleanupClocks();
      if !ok { return; }
      ok := ApplyOffsets(Graphics, config.gpu);
      if !ok { return; }
      ok := ApplyOffsets(Memory, config.mem);
    }

    /** The offsets shown for one clock, by performance state; none if the states cannot be listed. */
    method GetClocksInfo(clock: Clock) returns (offsets: Option<map<nat, int>>)
      ensures offsets.Some? <==> driver.supported.Some?
      ensures offsets.Some? ==>
        forall p :: p in offsets.value <==> p in driver.supported.value && (clock, p) in driver.readable
      ensures offsets.Some? ==> forall p :: p in offsets.value ==>
          offsets.value[p] == Shown(driver, Contents(), (clock, p))
    {
      if driver.supported.None? { return None; }
      var pstates := driver.supported.value;
      var shown: map<nat, int> := map[];
      for i := |pstates| downto 0
        invariant forall p :: p in shown <==> p in pstates[i..] && (clock, p) in driver.readable
        invariant forall p :: p in shown ==> shown[p] == Shown(driver, Contents(), (clock, p))
      {
        var k := (clock, pstates[i]);
        var offset := ClockOffset(k);
        if offset.Some? {
          var current := offset.value;
          if current == 0 && k in applied {
            current := applied[k];
          }
          shown := shown[pstates[i] := current];
        }
      }
      offsets := Some(shown);
    }
  }

  lemma {:induction false} CleanKeysAppend(d: Driver, s: State, keys: seq<Key>, more: seq<Key>)
    ensures CleanKeys(d, s, keys + more) ==
      var before := CleanKeys(d, s, keys);
      if !before.1 then before else CleanKeys(d, before.0, more)
  {
    if more == [] {
      assert keys + more == keys;
    } else {
      var all, rest := keys + more, more[..|more| - 1];
      assert all[..|all| - 1] == keys + rest && all[|all| - 1] == more[|more| - 1];
      CleanKeysAppend(d, s, keys, rest);
    }
  }

  lemma {:induction false} StopsEarly(d: Driver, s: State, keys: seq<Key>, all: seq<Key>)
    requires keys <= all && !CleanKeys(d, s, keys).1
    ensures CleanKeys(d, s, all) == CleanKeys(d, s, keys)
    decreases |all|
  {
    if |keys| < |all| {
      StopsEarly(d, s, keys, all[..|all| - 1]);
    } else {
      assert keys == all;
    }
  }

  lemma {:induction false} KeysOfPrefix(pstates: seq<nat>, i: nat)
    requires i <= |pstates|
    ensures KeysOf(pstates[..i]) <= KeysOf(pstates)
  {
    if i < |pstates| {
      KeysOfPrefix(pstates[..|pstates| - 1], i);
      assert pstates[..|pstates| - 1][..i] == pstates[..i];
    } else {
      assert pstates[..i] == pstates;
    }
  }

  lemma {:induction false} StopsAtPstate(d: Driver, s: State, pstates: seq<nat>, i: nat)
    requires i <= |pstates| && !CleanKeys(d, s, KeysOf(pstates[..i])).1
    ensures CleanKeys(d, s, KeysOf(pstates)) == CleanKeys(d, s, KeysOf(pstates[..i]))
  {
    KeysOfPrefix(pstates, i);
    StopsEarly(d, s, KeysOf(pstates[..i]), KeysOf(pstates));
  }

  lemma {:induction false} ApplyStopsEarly(d: Driver, s: State, clock: Clock, entries: Offsets, i: nat)
    requires i <= |entries| && !ApplyEntries(d, s, clock, entries[..i]).1
    ensures ApplyEntries(d, s, clock, entries) == ApplyEntries(d, s, clock, entries[..i])
    decreases |entries|
  {
    if i < |entries| {
      assert entries[..|entries| - 1][..i] == entries[..i];
      ApplyStopsEarly(d, s, clock, entries[..|entries| - 1], i);
    } else {
      assert entries[..i] == entries;
    }
  }

  // ---------- What every sequence of operations keeps ----------

  /** The record agrees with the hardware, and no readable offset is both unreported and unrecorded. */
  ghost predicate Consistent(d: Driver, s: State) {
    && (forall k :: k in s.applied ==> s.applied[k] == Offset(s, k))
    && (forall k :: k in d.readable && Offset(s, k) != 0 ==> Reported(d, s, k) != 0 || k in s.applied)
  }

  /** At start-up the record is empty, so this needs a truthful driver or untouched offsets. */
  lemma ConsistentAtStartIff(d: Driver, hardware: map<Key, int>)
    ensures var s := State(hardware, map[], 0);
      Consistent(d, s) <==> d.truthful || forall k :: k in d.readable ==> Offset(s, k) == 0
  {}

  lemma {:induction false} KeysOfMembers(pstates: seq<nat>, k: Key)
    ensures k in KeysOf(pstates) <==> k.1 in pstates
  {
    if pstates != [] {
      var rest, last := pstates[..|pstates| - 1], pstates[|pstates| - 1];
      KeysOfMembers(rest, k);
      assert pstates == rest + [last];
      match k.0
      case Graphics => assert k == KeysAt(k.1)[0];
      case Memory => assert k == KeysAt(k.1)[1];
    }
  }

  lemma CleanKeyEffect(d: Driver, s: State, k: Key)
    requires Consistent(d, s)
    ensures var (after, ok) := CleanKey(d, s, k);
      && Consistent(d, after)
      && (forall x: Key :: x != k ==> Offset(after, x) == Offset(s, x) && (x in after.applied <==> x in s.applied))
      && Offset(after, k) == (if ok && k in d.readable then 0 else Offset(s, k))
      && (k in after.applied ==> !ok && k in s.applied)
  {
    var after := CleanKey(d, s, k).0;
    forall x: Key | x != k ensures Offset(after, x) == Offset(s, x) && (x in after.applied <==> x in s.applied) {}
  }

  /** Each performance state in turn, its graphics clock before its memory clock. */
  lemma {:induction false} KeysInOrder(pstates: seq<nat>)
    ensures |KeysOf(pstates)| == 2 * |pstates|
    ensures forall i :: 0 <= i < |pstates| ==>
      KeysOf(pstates)[2 * i] == (Graphics, pstates[i]) && KeysOf(pstates)[2 * i + 1] == (Memory, pstates[i])
  {
    if pstates != [] {
      KeysInOrder(pstates[..|pstates| - 1]);
    }
  }

  /** A successful clean-up zeroes the readable offsets it visits and touches no other. */
  lemma {:induction false} CleanKeysEffect(d: Driver, s: State, keys: seq<Key>)
    requires Consistent(d, s)
    ensures var (after, ok) := CleanKeys(d, s, keys);
      && Consistent(d, after)
      && (forall k :: !(k in keys && k in d.readable) ==> Offset(after, k) == Offset(s, k))
      && (ok ==> forall k :: k in keys && k in d.readable ==> Offset(after, k) == 0)
      && (ok ==> forall k :: k in keys ==> k !in after.applied)
      && (forall k :: k in after.applied ==> k in s.applied)
  {
    if keys != [] {
      var rest, k := keys[..|keys| - 1], keys[|keys| - 1];
      CleanKeysEffect(d, s, rest);
      var (before, ok) := CleanKeys(d, s, rest);
      hide CleanKey, Consistent, Offset;
      if ok {
        CleanKeyEffect(d, before, k);
      }
      assert forall x :: x in keys <==> x in rest || x == k;
    }
  }

  /**
    After a successful clean-up a supported offset is zero if it can be read; one that cannot be read
    keeps its value, although the record of it is dropped.
   */
  lemma CleanupExact(d: Driver, s: State)
    requires Consistent(d, s)
    ensures var (after, ok) := Cleanup(d, s);
      && Consistent(d, after)
      && (ok && d.supported.Some? ==> forall k: Key :: k.1 in d.supported.value ==>
            k !in after.applied && Offset(after, k) == if k in d.readable then 0 else Offset(s, k))
  {
    if d.supported.Some? {
      var pstates := d.supported.value;
      CleanKeysEffect(d, s, KeysOf(pstates));
      forall k: Key ensures k in KeysOf(pstates) <==> k.1 in pstates { KeysOfMembers(pstates, k); }
    }
  }

  /** Entries of an ordered map: each performance state occurs once. */
  ghost predicate UniqueKeys(entries: Offsets) {
    forall i, j :: 0 <= i < j < |entries| ==> entries[i].0 != entries[j].0
  }

  lemma {:induction false} ApplyEntriesEffect(d: Driver, s: State, clock: Clock, entries: Offsets)
    requires Consistent(d, s) && UniqueKeys(entries)
    ensures var (after, ok) := ApplyEntries(d, s, clock, entries);
      && Consistent(d, after)
      && (forall k: Key :: k.0 != clock ==> Offset(after, k) == Offset(s, k))
      && (forall p: nat :: (forall e :: e in entries ==> e.0 != p) ==>
          Offset(after, (clock, p)) == Offset(s, (clock, p)))
      && (ok ==> forall e :: e in entries ==> Offset(after, (clock, e.0)) == e.1)
  {
    if entries != [] {
      var rest, last := entries[..|entries| - 1], entries[|entries| - 1];
      ApplyEntriesEffect(d, s, clock, rest);
      var (before, ok) := ApplyEntries(d, s, clock, rest);
      if ok {
        ApplyEntryEffect(d, before, clock, last);
      }
      assert forall e :: e in entries <==> e in rest || e == last;
      assert forall e :: e in rest ==> e.0 != last.0;
    }
  }

  lemma ApplyEntryEffect(d: Driver, s: State, clock: Clock, entry: (nat, int))
    requires Consistent(d, s)
    ensures var (after, ok) := ApplyEntry(d, s, clock, entry);
      && Consistent(d, after)
      && (forall k: Key :: k != (clock, entry.0) ==> Offset(after, k) == Offset(s, k))
      && (ok ==> Offset(after, (clock, entry.0)) == entry.1)
  {
    var after := ApplyEntry(d, s, clock, entry).0;
    forall k: Key | k != (clock, entry.0)
      ensures Offset(after, k) == Offset(s, k) && (k in after.applied <==> k in s.applied)
    {}
  }

  function EntriesFor(config: Config, clock: Clock): Offsets {
    if clock.Graphics? then config.gpu else config.mem
  }

  ghost predicate WellFormed(config: Config) {
    UniqueKeys(config.gpu) && UniqueKeys(config.mem)
  }

  /** What the configuration asks for, or zero. */
  function Configured(entries: Offsets, pstate: nat): int {
    if entries == [] then 0
    else if entries[0].0 == pstate then entries[0].1
    else Configured(entries[1..], pstate)
  }

  lemma {:induction false} ConfiguredIs(entries: Offsets, pstate: nat)
    requires UniqueKeys(entries)
    ensures forall e :: e in entries && e.0 == pstate ==> e.1 == Configured(entries, pstate)
    ensures (forall e :: e in entries ==> e.0 != pstate) ==> Configured(entries, pstate) == 0
  {
    if entries != [] {
      assert UniqueKeys(entries[1..]) by {
        forall i, j | 0 <= i < j < |entries[1..]| ensures entries[1..][i].0 != entries[1..][j].0 {
          assert entries[i + 1].0 != entries[j + 1].0;
        }
      }
      ConfiguredIs(entries[1..], pstate);
      forall e | e in entries && e.0 == pstate ensures e.1 == Configured(entries, pstate) {
        assert e == entries[0] || e in entries[1..];
        if e != entries[0] {
          var i :| 0 <= i < |entries| && entries[i] == e;
          assert entries[0].0 != entries[i].0;
        }
      }
    }
  }

  /** A successful apply leaves every supported readable offset as configured, or zero. */
  lemma ApplyExact(d: Driver, s: State, config: Config)
    requires Consistent(d, s) && WellFormed(config)
    ensures var (after, ok) := Apply(d, s, config);
      && Consistent(d, after)
      && (ok && d.supported.Some? ==> forall k: Key :: k.1 in d.supported.value && k in d.readable ==>
            Offset(after, k) == Configured(EntriesFor(config, k.0), k.1))
  {
    CleanupExact(d, s);
    var (cleaned, ok) := Cleanup(d, s);
    if ok {
      ApplyEntriesEffect(d, cleaned, Graphics, config.gpu);
      var (gpu, gpuOk) := ApplyEntries(d, cleaned, Graphics, config.gpu);
      if gpuOk {
        ApplyEntriesEffect(d, gpu, Memory, config.mem);
        var (after, memOk) := ApplyEntries(d, gpu, Memory, config.mem);
        if memOk && d.supported.Some? {
          forall k: Key | k.1 in d.supported.value && k in d.readable
            ensures Offset(after, k) == Configured(EntriesFor(config, k.0), k.1)
          {
            var entries := EntriesFor(config, k.0);
            ConfiguredIs(entries, k.1);
            if exists e :: e in entries && e.0 == k.1 {
              var e :| e in entries && e.0 == k.1;
              assert k == (k.0, e.0);
            } else {
              assert k == (k.0, k.1);
            }
          }
        }
      }
    }
  }

  datatype Op = ApplyConfig(config: Config) | CleanupClocks

  function Run(d: Driver, s: State, ops: seq<Op>): State {
    if ops == [] then s
    else
      var before := Run(d, s, ops[..|ops| - 1]);
      match ops[|ops| - 1]
      case ApplyConfig(config) => Apply(d, before, config).0
      case CleanupClocks => Cleanup(d, before).0
  }

  ghost predicate WellFormedOps(ops: seq<Op>) {
    forall i :: 0 <= i < |ops| && ops[i].ApplyConfig? ==> WellFormed(ops[i].config)
  }

  lemma {:induction false} RunConsistent(d: Driver, s: State, ops: seq<Op>)
    requires Consistent(d, s) && WellFormedOps(ops)
    ensures Consistent(d, Run(d, s, ops))
  {
    if ops != [] {
      var before, op := Run(d, s, ops[..|ops| - 1]), ops[|ops| - 1];
      RunConsistent(d, s, ops[..|ops| - 1]);
      match op
      case ApplyConfig(config) => ApplyExact(d, before, config);
      case CleanupClocks => CleanupExact(d, before);
    }
  }

  /**
    Whatever was applied or cleaned up before, and whichever of those writes failed: the offsets shown
    are the ones in the hardware, and the next successful apply sets exactly its configuration.
   */
  lemma {:induction false} ShownAndAppliedAreTrue(d: Driver, s: State, ops: seq<Op>, config: Config)
    requires Consistent(d, s) && WellFormedOps(ops) && WellFormed(config)
    ensures forall k :: k in d.readable ==> Shown(d, Run(d, s, ops), k) == Offset(Run(d, s, ops), k)
    ensures var (after, ok) := Apply(d, Run(d, s, ops), config);
      ok && d.supported.Some? ==> forall k: Key :: k.1 in d.supported.value && k in d.readable ==>
        Shown(d, after, k) == Offset(after, k) == Configured(EntriesFor(config, k.0), k.1)
  {
    RunConsistent(d, s, ops);
    ApplyExact(d, Run(d, s, ops), config);
  }

  // ---------- When an operation succeeds, and what a failed one leaves ----------

  /** The driver accepted every write from one state to a later one. */
  ghost predicate AllAccepted(d: Driver, before: State, after: State) {
    forall n :: before.writes <= n < after.writes ==> d.accepts(n)
  }

  lemma AcceptedInTurn(d: Driver, a: State, b: State, c: State)
    requires a.writes <= b.writes <= c.writes
    ensures AllAccepted(d, a, c) <==> AllAccepted(d, a, b) && AllAccepted(d, b, c)
  {}

  /** Hardware and record of a key are the same in both states. */
  ghost predicate SameAt(s: State, f: State, k: Key) {
    && Offset(f, k) == Offset(s, k) && (k in f.applied <==> k in s.applied)
    && (k in s.applied && k in f.applied ==> f.applied[k] == s.applied[k])
  }

  /** The key was reset if it can be read, and its record dropped. */
  ghost predicate CleanAt(d: Driver, s: State, f: State, k: Key) {
    k !in f.applied && Offset(f, k) == if k in d.readable then 0 else Offset(s, k)
  }

  /** The key was set to a value and recorded. */
  ghost predicate SetAt(f: State, k: Key, offset: int) {
    Offset(f, k) == offset && k in f.applied && f.applied[k] == offset
  }

  lemma InTurn(d: Driver, a: State, b: State, c: State, k: Key)
    ensures SameAt(a, b, k) && SameAt(b, c, k) ==> SameAt(a, c, k)
    ensures (CleanAt(d, a, b, k) || SameAt(a, b, k)) && CleanAt(d, b, c, k) ==> CleanAt(d, a, c, k)
    ensures CleanAt(d, a, b, k) && SameAt(b, c, k) ==> CleanAt(d, a, c, k)
  {
    hide Offset;
  }

  lemma CleanKeyEnds(d: Driver, s: State, k: Key)
    requires Consistent(d, s)
    ensures var (after, ok) := CleanKey(d, s, k);
      && after.writes == s.writes +
          (if k in d.readable && (Reported(d, s, k) != 0 || (k in s.applied && s.applied[k] != 0)) then 1 else 0)
      && (ok <==> AllAccepted(d, s, after))
      && (ok ==> CleanAt(d, s, after, k))
      && (forall x: Key :: x != k || !ok ==> SameAt(s, after, x))
  {
    var (after, ok) := CleanKey(d, s, k);
    if NeedsReset(d, s, k) { assert d.accepts(s.writes) <==> AllAccepted(d, s, after); }
  }

  /** Keys are cleaned in order up to the first write that is refused; the others stay as they were. */
  lemma {:induction false} CleanKeysEnd(d: Driver, s: State, keys: seq<Key>) returns (k: nat)
    requires Consistent(d, s)
    ensures var (after, ok) := CleanKeys(d, s, keys);
      && k <= |keys| && s.writes <= after.writes
      && (ok <==> AllAccepted(d, s, after)) && (ok <==> k == |keys|)
      && forall x :: if x in keys[..k] then CleanAt(d, s, after, x) else SameAt(s, after, x)
  {
    if keys == [] {
      k := 0;
    } else {
      var rest, key := keys[..|keys| - 1], keys[|keys| - 1];
      k := CleanKeysEnd(d, s, rest);
      var (before, ok) := CleanKeys(d, s, rest);
      assert keys[..k] == rest[..k];
      if ok {
        CleanKeysEffect(d, s, rest);
        CleanKeyEnds(d, before, key);
        var (after, cleaned) := CleanKey(d, before, key);
        AcceptedInTurn(d, s, before, after);
        hide CleanKey, Consistent, Offset, AllAccepted, SameAt, CleanAt;
        assert keys[..|keys|] == rest + [key] && rest[..|rest|] == rest;
        if cleaned { k := |keys|; }
        forall x ensures if x in keys[..k] then CleanAt(d, s, after, x) else SameAt(s, after, x) {
          InTurn(d, s, before, after, x);
        }
      }
    }
  }

  /**
    A clean-up succeeds exactly when every write it makes is accepted. It cleans the supported keys in
    order, up to the first that it cannot write, and leaves all others as they were.
   */
  lemma CleanupEnds(d: Driver, s: State) returns (k: nat)
    requires Consistent(d, s)
    ensures var (after, ok) := Cleanup(d, s);
      var keys := if d.supported.Some? then KeysOf(d.supported.value) else [];
      && k <= |keys| && s.writes <= after.writes
      && (ok <==> AllAccepted(d, s, after)) && (ok <==> k == |keys|)
      && forall x :: if x in keys[..k] then CleanAt(d, s, after, x) else SameAt(s, after, x)
  {
    if d.supported.Some? { k := CleanKeysEnd(d, s, KeysOf(d.supported.value)); } else { k := 0; }
  }

  ghost predicate AllValid(d: Driver, entries: Offsets) {
    forall e :: e in entries ==> e.0 in d.pstates
  }

  lemma ApplyEntryEnds(d: Driver, s: State, clock: Clock, entry: (nat, int))
    ensures var (after, ok) := ApplyEntry(d, s, clock, entry);
      && after.writes == s.writes + (if entry.0 in d.pstates then 1 else 0)
      && (ok <==> entry.0 in d.pstates && AllAccepted(d, s, after))
      && (ok ==> SetAt(after, (clock, entry.0), entry.1))
      && (forall x: Key :: x != (clock, entry.0) || !ok ==> SameAt(s, after, x))
  {
    var (after, ok) := ApplyEntry(d, s, clock, entry);
    if entry.0 in d.pstates { assert d.accepts(s.writes) <==> AllAccepted(d, s, after); }
  }

  /** The first `k` entries are set and recorded, and all other keys are as in `s`. */
  ghost predicate SetUpTo(s: State, f: State, clock: Clock, entries: Offsets, k: nat)
    requires k <= |entries|
  {
    && (forall e :: e in entries[..k] ==> SetAt(f, (clock, e.0), e.1))
    && (forall x: Key :: x.0 != clock || (forall e :: e in entries[..k] ==> e.0 != x.1) ==> SameAt(s, f, x))
  }

  /**
    Entries are applied in order. It succeeds exactly when every number names a state and every write
    is accepted, and stops at the first entry for which that fails.
   */
  lemma {:induction false} ApplyEntriesEnd(d: Driver, s: State, clock: Clock, entries: Offsets) returns (k: nat)
    requires UniqueKeys(entries)
    ensures var (after, ok) := ApplyEntries(d, s, clock, entries);
      && k <= |entries| && s.writes <= after.writes
      && (ok <==> AllValid(d, entries) && AllAccepted(d, s, after)) && (ok <==> k == |entries|)
      && SetUpTo(s, after, clock, entries, k)
  {
    if entries == [] {
      k := 0;
    } else {
      var rest, last := entries[..|entries| - 1], entries[|entries| - 1];
      k := ApplyEntriesEnd(d, s, clock, rest);
      var (before, ok) := ApplyEntries(d, s, clock, rest);
      assert entries[..k] == rest[..k];
      assert forall e :: e in entries <==> e in rest || e == last;
      assert SetUpTo(s, before, clock, entries, k);
      if ok {
        ApplyEntryEnds(d, before, clock, last);
        var (after, success) := ApplyEntry(d, before, clock, last);
        AcceptedInTurn(d, s, before, after);
        hide ApplyEntry, Offset, AllAccepted, SetUpTo, SetAt, SameAt;
        if success {
          OneMoreSet(s, before, after, clock, entries);
          k := |entries|;
        } else {
          NoMoreSet(s, before, after, clock, entries, k);
        }
      }
    }
  }

  lemma OneMoreSet(s: State, before: State, after: State, clock: Clock, entries: Offsets)
    requires entries != [] && UniqueKeys(entries) && SetUpTo(s, before, clock, entries, |entries| - 1)
    requires var last := entries[|entries| - 1];
      && SetAt(after, (clock, last.0), last.1)
      && forall x: Key :: x != (clock, last.0) ==> SameAt(before, after, x)
    ensures SetUpTo(s, after, clock, entries, |entries|)
  {
    var rest, last := entries[..|entries| - 1], entries[|entries| - 1];
    assert entries[..|entries|] == rest + [last];
    hide Offset;
    forall e | e in entries[..|entries|] ensures SetAt(after, (clock, e.0), e.1) {
      if e in rest {
        assert e.0 != last.0;
        assert SetAt(before, (clock, e.0), e.1) && SameAt(before, after, (clock, e.0));
      }
    }
    forall x: Key | x.0 != clock || (forall e :: e in entries[..|entries|] ==> e.0 != x.1) ensures SameAt(s, after, x) {
      assert last in entries[..|entries|] && forall e :: e in rest ==> e in entries[..|entries|];
      assert SameAt(s, before, x) && SameAt(before, after, x);
    }
  }

  lemma NoMoreSet(s: State, before: State, after: State, clock: Clock, entries: Offsets, k: nat)
    requires k <= |entries| && SetUpTo(s, before, clock, entries, k) && forall x: Key :: SameAt(before, after, x)
    ensures SetUpTo(s, after, clock, entries, k)
  {
    hide Offset;
    forall e | e in entries[..k] ensures SetAt(after, (clock, e.0), e.1) {
      assert SetAt(before, (clock, e.0), e.1) && SameAt(before, after, (clock, e.0));
    }
    forall x: Key | x.0 != clock || (forall e :: e in entries[..k] ==> e.0 != x.1) ensures SameAt(s, after, x) {
      assert SameAt(s, before, x) && SameAt(before, after, x);
    }
  }

  /**
    An apply succeeds exactly when every configured number names a performance state and every write
    made is accepted. After a clean-up that succeeded, the first `g` graphics and the first `m` memory
    entries are set and recorded, all of them if it succeeds, and other keys are as the clean-up left them.
   */
  lemma ApplyEnds(d: Driver, s: State, config: Config) returns (g: nat, m: nat)
    requires Consistent(d, s) && WellFormed(config)
    ensures var (cleaned, clean), (after, ok) := Cleanup(d, s), Apply(d, s, config);
      && g <= |config.gpu| && m <= |config.mem| && (m > 0 ==> g == |config.gpu|)
      && s.writes <= cleaned.writes <= after.writes
      && (clean <==> AllAccepted(d, s, cleaned))
      && (ok <==> AllValid(d, config.gpu) && AllValid(d, config.mem) && AllAccepted(d, s, after))
      && (ok <==> clean && g == |config.gpu| && m == |config.mem|)
      && (!clean ==> after == cleaned)
      && (forall e :: e in config.gpu[..g] ==> SetAt(after, (Graphics, e.0), e.1))
      && (forall e :: e in config.mem[..m] ==> SetAt(after, (Memory, e.0), e.1))
      && (forall x: Key ::
            (forall e :: e in (if x.0.Graphics? then config.gpu[..g] else config.mem[..m]) ==> e.0 != x.1) ==>
              SameAt(cleaned, after, x))
  {
    var _ := CleanupEnds(d, s);
    var (cleaned, clean) := Cleanup(d, s);
    g, m := 0, 0;
    if clean {
      g := ApplyEntriesEnd(d, cleaned, Graphics, config.gpu);
      var (gpu, gpuOk) := ApplyEntries(d, cleaned, Graphics, config.gpu);
      AcceptedInTurn(d, s, cleaned, gpu);
      if gpuOk {
        m := ApplyEntriesEnd(d, gpu, Memory, config.mem);
        var (after, ok) := ApplyEntries(d, gpu, Memory, config.mem);
        AcceptedInTurn(d, s, gpu, after);
        BothSet(d, cleaned, gpu, after, config, g, m);
      }
    }
  }

  lemma BothSet(d: Driver, cleaned: State, gpu: State, after: State, config: Config, g: nat, m: nat)
    requires g <= |config.gpu| && m <= |config.mem|
    requires SetUpTo(cleaned, gpu, Graphics, config.gpu, g) && SetUpTo(gpu, after, Memory, config.mem, m)
    ensures forall e :: e in config.gpu[..g] ==> SetAt(after, (Graphics, e.0), e.1)
    ensures forall e :: e in config.mem[..m] ==> SetAt(after, (Memory, e.0), e.1)
    ensures forall x: Key ::
      (forall e :: e in (if x.0.Graphics? then config.gpu[..g] else config.mem[..m]) ==> e.0 != x.1) ==>
        SameAt(cleaned, after, x)
  {
    hide Offset;
    forall e | e in config.gpu[..g] ensures SetAt(after, (Graphics, e.0), e.1) {
      assert SetAt(gpu, (Graphics, e.0), e.1) && SameAt(gpu, after, (Graphics, e.0));
    }
    forall x: Key |
      forall e :: e in (if x.0.Graphics? then config.gpu[..g] else config.mem[..m]) ==> e.0 != x.1
      ensures SameAt(cleaned, after, x)
    {
      InTurn(d, cleaned, gpu, after, x);
    }
  }
}
