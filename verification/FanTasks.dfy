/**
  The two tasks that run the fan loop, with the hardware they drive. They share the decisions of
  `FanControl` and differ in how they read temperatures, write speeds and react to failed writes.
 */
module FanTasks {
  import opened Wrappers
  import opened FanCurve
  import opened FanControl

  // ---------- AMD ----------

  /** `hardware` is the PWM value last accepted by the device. */
  datatype AmdState = AmdState(memory: Memory, controlAvailable: bool, running: bool, hardware: Option<nat>)

  datatype Outcome = Outcome(reading: Reading, writeOk: bool)

  function AmdTick(curve: FanCurveMap, settings: Settings, s: AmdState, o: Outcome): AmdState
    requires curve != []
  {
    var decision := Decide(curve, settings, s.memory, o.reading);
    if !s.running || !decision.SetPwm? then s
    else
      var memory := Remember(s.memory, decision, o.reading);
      if o.writeOk then AmdState(memory, true, true, Some(decision.pwm))
      else AmdState(memory, s.controlAvailable, s.controlAvailable, s.hardware)
  }

  class AmdFanTask {
    const curve: FanCurveMap
    const settings: Settings
    var lastPwm: Option<nat>
    var lastAt: nat
    var lastTemp: real
    var controlAvailable: bool
    var running: bool
    var hardware: Option<nat>

    ghost function State(): AmdState
      reads this
    {
      AmdState(Memory(lastPwm, lastAt, lastTemp), controlAvailable, running, hardware)
    }

    constructor (curve: FanCurveMap, spindownDelayMs: Option<nat>, changeThreshold: Option<nat>, now: nat,
        hardware: Option<nat>)
      requires curve != []
      ensures this.curve == curve
      ensures settings.spindownDelay == (if spindownDelayMs.Some? then spindownDelayMs.value else 0)
      ensures settings.changeThreshold == (if changeThreshold.Some? then changeThreshold.value else 0) as real
      ensures State() == AmdStart(now, hardware)
    {
      this.curve := curve;
      settings := Settings(OrZero(spindownDelayMs), OrZero(changeThreshold) as real);
      lastPwm, lastAt, lastTemp := None, now, 0.0;
      controlAvailable, running := false, true;
      this.hardware := hardware;
    }

    /** One pass through the loop body; `writeOk` is the device's answer if it is asked to write. */
    method Tick(currentTemp: real, crit: Option<real>, now: nat, writeOk: bool)
      requires curve != [] && running
      modifies this
      ensures State() == AmdTick(curve, settings, old(State()), Outcome(Reading(currentTemp, crit, now), writeOk))
    {
      if Distance(lastTemp, currentTemp) < settings.changeThreshold {
        return;
      }
      var targetPwm := PwmAtTemp(curve, currentTemp, crit);
      if lastPwm.Some? {
        var diff := Elapsed(lastAt, now);
        if targetPwm < lastPwm.value && diff < settings.spindownDelay {
          return;
        }
      }
      lastPwm, lastAt := Some(targetPwm), now;
      lastTemp := currentTemp;
      if writeOk {
        hardware := Some(targetPwm);
        controlAvailable := true;
      } else if !controlAvailable {
        running := false;
      }
    }
  }

  function OrZero(x: Option<nat>): nat {
    if x.Some? then x.value else 0
  }

  function AmdStart(now: nat, hardware: Option<nat>): AmdState {
    AmdState(Memory(None, now, 0.0), false, true, hardware)
  }

  function AmdRun(curve: FanCurveMap, settings: Settings, s: AmdState, outcomes: seq<Outcome>): AmdState
    requires curve != []
  {
    if outcomes == [] then s
    else AmdTick(curve, settings, AmdRun(curve, settings, s, outcomes[..|outcomes| - 1]), outcomes[|outcomes| - 1])
  }

  function Readings(outcomes: seq<Outcome>): (readings: seq<Reading>)
    ensures |readings| == |outcomes|
    ensures forall i :: 0 <= i < |outcomes| ==> readings[i] == outcomes[i].reading
  {
    seq(|outcomes|, i requires 0 <= i < |outcomes| => outcomes[i].reading)
  }

  /**
    What a tick does: nothing on an idle reading or once the task has ended. Otherwise the curve's answer
    is recorded and written; a refused write leaves the hardware and ends the task unless one was
    accepted before.
   */
  lemma AmdTickIs(curve: FanCurveMap, settings: Settings, s: AmdState, o: Outcome)
    requires curve != []
    ensures var pwm := PwmAtTemp(curve, o.reading.temp, o.reading.crit);
      AmdTick(curve, settings, s, o) ==
        if !s.running || Idle(curve, settings, s.memory, [o.reading]) then s
        else AmdState(Memory(Some(pwm), o.reading.now, o.reading.temp), s.controlAvailable || o.writeOk,
                      s.controlAvailable || o.writeOk, if o.writeOk then Some(pwm) else s.hardware)
  {
    TickRecordsIff(curve, settings, s.memory, o.reading);
    assert [o.reading][0] == o.reading;
    hide PwmAtTemp;
  }

  /** As long as all readings are idle, the hardware keeps what it has, whatever writes would do. */
  lemma {:induction false} AmdIdle(curve: FanCurveMap, settings: Settings, s: AmdState, outcomes: seq<Outcome>)
    requires curve != [] && Idle(curve, settings, s.memory, Readings(outcomes))
    ensures AmdRun(curve, settings, s, outcomes) == s
  {
    if outcomes != [] {
      var last := |outcomes| - 1;
      assert Readings(outcomes[..last]) == Readings(outcomes)[..last];
      AmdIdle(curve, settings, s, outcomes[..last]);
      AmdTickIs(curve, settings, s, outcomes[last]);
      hide PwmAtTemp, Decide;
    }
  }

  /** While the task runs its memory is that of the shared loop. */
  lemma {:induction false} AmdFollowsLoop(curve: FanCurveMap, settings: Settings, s: AmdState, outcomes: seq<Outcome>)
    requires curve != [] && s.running && AmdRun(curve, settings, s, outcomes).running
    ensures AmdRun(curve, settings, s, outcomes).memory == Run(curve, settings, s.memory, Readings(outcomes))
  {
    if outcomes != [] {
      var before := outcomes[..|outcomes| - 1];
      assert Readings(before) == Readings(outcomes)[..|outcomes| - 1];
      AmdFollowsLoop(curve, settings, s, before);
    }
  }

  /** The last outcome for which the task tried to write. */
  function LastTry(curve: FanCurveMap, settings: Settings, s: AmdState, outcomes: seq<Outcome>): (k: Option<nat>)
    requires curve != []
    ensures k.Some? ==> k.value < |outcomes|
  {
    if outcomes == [] then None
    else
      var last := |outcomes| - 1;
      var before := AmdRun(curve, settings, s, outcomes[..last]);
      if before.running && Decide(curve, settings, before.memory, outcomes[last].reading).SetPwm? then Some(last)
      else LastTry(curve, settings, s, outcomes[..last])
  }

  /**
    After every run, whatever writes failed: the PWM recorded is that of the last write tried. The
    hardware holds it if that write was accepted, and otherwise what it held before.
   */
  lemma {:induction false} AmdHardwareIs(curve: FanCurveMap, settings: Settings, s: AmdState, outcomes: seq<Outcome>)
    requires curve != []
    ensures LastTry(curve, settings, s, outcomes).None? ==> AmdRun(curve, settings, s, outcomes) == s
    ensures LastTry(curve, settings, s, outcomes).Some? ==>
      var k, f := LastTry(curve, settings, s, outcomes).value, AmdRun(curve, settings, s, outcomes);
      var pwm := PwmAtTemp(curve, outcomes[k].reading.temp, outcomes[k].reading.crit);
      && f.memory.lastPwm == Some(pwm)
      && f.hardware == (if outcomes[k].writeOk then Some(pwm) else AmdRun(curve, settings, s, outcomes[..k]).hardware)
      && (outcomes[k].writeOk ==> f.running)
  {
    hide PwmAtTemp;
    if outcomes != [] {
      var last := |outcomes| - 1;
      AmdHardwareIs(curve, settings, s, outcomes[..last]);
      var earlier := LastTry(curve, settings, s, outcomes[..last]);
      if earlier.Some? {
        assert outcomes[..last][earlier.value] == outcomes[earlier.value];
        assert outcomes[..last][..earlier.value] == outcomes[..earlier.value];
      }
    }
  }

  /**
    In every run, whenever the last write that was tried was accepted, the PWM in the hardware is at
    least what the curve asks for at the current temperature less the change threshold.
   */
  lemma {:induction false} AmdFanSafe(curve: FanCurveMap, settings: Settings, now: nat, hardware: Option<nat>,
      outcomes: seq<Outcome>, crit: Option<real>)
    requires curve != [] && Nondecreasing(curve) && outcomes != []
    requires SameCrit(Readings(outcomes), crit)
    requires var k := LastTry(curve, settings, AmdStart(now, hardware), outcomes);
      k.Some? && outcomes[k.value].writeOk
    ensures var s, temp := AmdRun(curve, settings, AmdStart(now, hardware), outcomes),
        outcomes[|outcomes| - 1].reading.temp;
      s.hardware.Some? && s.hardware.value >= PwmAtTemp(curve, temp - Slack(settings), crit)
  {
    hide PwmAtTemp, Nondecreasing, Decide;
    AmdHardwareIs(curve, settings, AmdStart(now, hardware), outcomes);
    AmdFollowsLoop(curve, settings, AmdStart(now, hardware), outcomes);
    NeverFarBelowCurve(curve, settings, Memory(None, now, 0.0), Readings(outcomes), crit);
  }

  /**
    A failed write is recorded as if it had happened. At an unchanged temperature it is tried again
    exactly when no change threshold is set.
   */
  lemma FailedWriteRetriedIff(curve: FanCurveMap, settings: Settings, s: AmdState, failed: Outcome, next: Reading)
    requires curve != [] && s.running && s.controlAvailable && !failed.writeOk
    requires Decide(curve, settings, s.memory, failed.reading).SetPwm?
    requires next.temp == failed.reading.temp && next.crit == failed.reading.crit
    ensures var after := AmdTick(curve, settings, s, failed);
      && after.running && after.hardware == s.hardware
      && (Decide(curve, settings, after.memory, next).SetPwm? <==> settings.changeThreshold <= 0.0)
  {
    hide PwmAtTemp;
  }

  /**
    The task is running exactly when nothing was recorded yet or some write was accepted; until one
    is accepted the hardware is untouched.
   */
  lemma {:induction false} AmdRunningIff(curve: FanCurveMap, settings: Settings, now: nat, hardware: Option<nat>,
      outcomes: seq<Outcome>)
    requires curve != []
    ensures var s := AmdRun(curve, settings, AmdStart(now, hardware), outcomes);
      && (s.running <==> s.memory.lastPwm.None? || s.controlAvailable)
      && (!s.controlAvailable ==> s.hardware == hardware)
  {
    hide PwmAtTemp;
    if outcomes != [] {
      AmdRunningIff(curve, settings, now, hardware, outcomes[..|outcomes| - 1]);
    }
  }

  // ---------- Nvidia ----------

  const U32_RANGE := 0x1_0000_0000

  /** Conversion of an unsigned 64-bit value to a signed 32-bit one keeps the low bits. */
  function AsI32(x: nat): int {
    var low := x % U32_RANGE;
    if low >= U32_RANGE / 2 then low - U32_RANGE else low
  }

  /** The device is driven in percent of its speed. */
  function FanPercent(pwm: nat): nat {
    (pwm as real / 2.5).Floor
  }

  datatype NvidiaState = NvidiaState(memory: Memory, fans: seq<nat>)

  /** How many fans accept a write before the first one refuses. */
  function Accepted(accepts: seq<bool>): (k: nat)
    ensures k <= |accepts|
    ensures forall i :: 0 <= i < k ==> accepts[i]
    ensures k < |accepts| ==> !accepts[k]
  {
    if accepts == [] || !accepts[0] then 0 else 1 + Accepted(accepts[1..])
  }

  /** Fans are written in order until one refuses; the loop itself goes on. */
  function WrittenFans(fans: seq<nat>, percent: nat, accepts: seq<bool>): seq<nat>
    requires |accepts| == |fans|
  {
    seq(|fans|, i requires 0 <= i < |fans| => if i < Accepted(accepts) then percent else fans[i])
  }

  function NvidiaTick(curve: FanCurveMap, settings: Settings, s: NvidiaState, r: Reading, accepts: seq<bool>)
    : NvidiaState
    requires curve != [] && |accepts| == |s.fans|
  {
    var decision := Decide(curve, settings, s.memory, r);
    if !decision.SetPwm? then s
    else NvidiaState(Remember(s.memory, decision, r), WrittenFans(s.fans, FanPercent(decision.pwm), accepts))
  }

  class NvidiaFanTask {
    const curve: FanCurveMap
    const spindownDelay: nat
    const changeThreshold: int
    var lastPwm: Option<nat>
    var lastAt: nat
    var lastTemp: int
    var fans: seq<nat>

    ghost function State(): NvidiaState
      reads this
    {
      NvidiaState(Memory(lastPwm, lastAt, lastTemp as real), fans)
    }

    constructor (curve: FanCurveMap, spindownDelayMs: Option<nat>, changeThreshold: Option<nat>, now: nat,
        fans: seq<nat>)
      requires curve != []
      ensures this.curve == curve
      ensures spindownDelay == (if spindownDelayMs.Some? then spindownDelayMs.value else 0)
      ensures this.changeThreshold == (if changeThreshold.Some? then AsI32(changeThreshold.value) else 0)
      ensures State() == NvidiaState(Memory(None, now, 0.0), fans)
    {
      this.curve := curve;
      spindownDelay, this.changeThreshold := OrZero(spindownDelayMs), AsI32(OrZero(changeThreshold));
      lastPwm, lastAt, lastTemp := None, now, 0;
      this.fans := fans;
    }

    method Tick(currentTemp: int, now: nat, accepts: seq<bool>)
      requires curve != [] && |accepts| == |fans|
      modifies this
      ensures State() == NvidiaTick(curve, Settings(spindownDelay, changeThreshold as real), old(State()),
                                    Reading(currentTemp as real, None, now), accepts)
    {
      var change := lastTemp - currentTemp;
      if (if change < 0 then -change else change) < changeThreshold {
        return;
      }
      var targetPwm := PwmAtTemp(curve, currentTemp as real, None);
      if lastPwm.Some? {
        var diff := Elapsed(lastAt, now);
        if targetPwm < lastPwm.value && diff < spindownDelay {
          return;
        }
      }
      lastPwm, lastAt := Some(targetPwm), now;
      lastTemp := currentTemp;
      WriteFans((targetPwm as real / 2.5).Floor, accepts);
    }

    method WriteFans(percent: nat, accepts: seq<bool>)
      requires |accepts| == |fans|
      modifies this`fans
      ensures fans == WrittenFans(old(fans), percent, accepts)
    {
      var fan := 0;
      while fan < |fans| && accepts[fan]
        invariant 0 <= fan <= |fans| == |accepts|
        invariant forall i :: 0 <= i < fan ==> accepts[i] && fans[i] == percent
        invariant forall i :: fan <= i < |fans| ==> fans[i] == old(fans)[i]
      {
        fans := fans[fan := percent];
        fan := fan + 1;
      }
      assert fan == Accepted(accepts);
    }
  }

  datatype NvidiaOutcome = NvidiaOutcome(reading: Reading, accepts: seq<bool>)

  ghost predicate ForFans(outcomes: seq<NvidiaOutcome>, count: nat) {
    forall i :: 0 <= i < |outcomes| ==> |outcomes[i].accepts| == count
  }

  function NvidiaReadings(outcomes: seq<NvidiaOutcome>): seq<Reading> {
    seq(|outcomes|, i requires 0 <= i < |outcomes| => outcomes[i].reading)
  }

  ghost function NvidiaRun(curve: FanCurveMap, settings: Settings, s: NvidiaState, outcomes: seq<NvidiaOutcome>)
    : (r: NvidiaState)
    requires curve != [] && ForFans(outcomes, |s.fans|)
    ensures |r.fans| == |s.fans|
  {
    if outcomes == [] then s
    else
      var last := outcomes[|outcomes| - 1];
      NvidiaTick(curve, settings, NvidiaRun(curve, settings, s, outcomes[..|outcomes| - 1]), last.reading, last.accepts)
  }

  /** No fan up to this one refuses. */
  ghost predicate Reached(accepts: seq<bool>, fan: nat)
    requires fan < |accepts|
  {
    forall i :: 0 <= i <= fan ==> accepts[i]
  }

  /** What a tick does: nothing on an idle reading, else the fans are written up to the first that refuses. */
  lemma NvidiaTickIs(curve: FanCurveMap, settings: Settings, s: NvidiaState, r: Reading, accepts: seq<bool>)
    requires curve != [] && |accepts| == |s.fans|
    ensures var after, pwm := NvidiaTick(curve, settings, s, r, accepts), PwmAtTemp(curve, r.temp, r.crit);
      && (Idle(curve, settings, s.memory, [r]) ==> after == s)
      && (!Idle(curve, settings, s.memory, [r]) ==>
            && after.memory == Memory(Some(pwm), r.now, r.temp) && |after.fans| == |s.fans|
            && forall fan :: 0 <= fan < |s.fans| ==>
              after.fans[fan] == if Reached(accepts, fan) then FanPercent(pwm) else s.fans[fan])
  {
    TickRecordsIff(curve, settings, s.memory, r);
    assert [r][0] == r;
    hide PwmAtTemp, FanPercent;
    forall fan | 0 <= fan < |s.fans| ensures Reached(accepts, fan) <==> fan < Accepted(accepts) {}
  }

  /** Whatever writes are refused, the memory of the task is that of the shared loop. */
  lemma {:induction false} NvidiaFollowsLoop(curve: FanCurveMap, settings: Settings, s: NvidiaState,
      outcomes: seq<NvidiaOutcome>)
    requires curve != [] && ForFans(outcomes, |s.fans|)
    ensures NvidiaRun(curve, settings, s, outcomes).memory == Run(curve, settings, s.memory, NvidiaReadings(outcomes))
  {
    hide Decide, FanPercent;
    if outcomes != [] {
      var before := outcomes[..|outcomes| - 1];
      assert NvidiaReadings(before) == NvidiaReadings(outcomes)[..|outcomes| - 1];
      NvidiaFollowsLoop(curve, settings, s, before);
    }
  }

  /** The last outcome for which the task tried to write. */
  ghost function LastNvidiaTry(curve: FanCurveMap, settings: Settings, s: NvidiaState, outcomes: seq<NvidiaOutcome>)
    : (k: Option<nat>)
    requires curve != [] && ForFans(outcomes, |s.fans|)
    ensures k.Some? ==> k.value < |outcomes|
  {
    if outcomes == [] then None
    else
      var last := |outcomes| - 1;
      var before := NvidiaRun(curve, settings, s, outcomes[..last]);
      if Decide(curve, settings, before.memory, outcomes[last].reading).SetPwm? then Some(last)
      else LastNvidiaTry(curve, settings, s, outcomes[..last])
  }

  /** After every run a fan runs at the speed last tried if it was reached, and otherwise as before. */
  lemma {:induction false} NvidiaFansAre(curve: FanCurveMap, settings: Settings, s: NvidiaState,
      outcomes: seq<NvidiaOutcome>)
    requires curve != [] && ForFans(outcomes, |s.fans|)
    ensures LastNvidiaTry(curve, settings, s, outcomes).None? ==> NvidiaRun(curve, settings, s, outcomes) == s
    ensures LastNvidiaTry(curve, settings, s, outcomes).Some? ==>
      var k, f := LastNvidiaTry(curve, settings, s, outcomes).value, NvidiaRun(curve, settings, s, outcomes);
      var pwm := PwmAtTemp(curve, outcomes[k].reading.temp, outcomes[k].reading.crit);
      && f.memory.lastPwm == Some(pwm)
      && f.fans == WrittenFans(NvidiaRun(curve, settings, s, outcomes[..k]).fans, FanPercent(pwm), outcomes[k].accepts)
  {
    hide PwmAtTemp, FanPercent, WrittenFans;
    if outcomes != [] {
      var last := |outcomes| - 1;
      NvidiaFansAre(curve, settings, s, outcomes[..last]);
      var earlier := LastNvidiaTry(curve, settings, s, outcomes[..last]);
      if earlier.Some? {
        assert outcomes[..last][earlier.value] == outcomes[earlier.value];
        assert outcomes[..last][..earlier.value] == outcomes[..earlier.value];
      }
    }
  }

  lemma PercentMonotone(a: nat, b: nat)
    requires a <= b
    ensures FanPercent(a) <= FanPercent(b)
  {
    assert a as real / 2.5 <= b as real / 2.5;
  }

  /** A fan that the last write tried has reached is as safe as the one of an AMD GPU, in the device's percent. */
  lemma {:induction false} NvidiaFanSafe(curve: FanCurveMap, settings: Settings, now: nat, fans: seq<nat>,
      outcomes: seq<NvidiaOutcome>, fan: nat)
    requires curve != [] && Nondecreasing(curve) && outcomes != [] && fan < |fans|
    requires ForFans(outcomes, |fans|) && SameCrit(NvidiaReadings(outcomes), None)
    requires var k := LastNvidiaTry(curve, settings, NvidiaState(Memory(None, now, 0.0), fans), outcomes);
      k.Some? && fan < Accepted(outcomes[k.value].accepts)
    ensures var s, temp := NvidiaRun(curve, settings, NvidiaState(Memory(None, now, 0.0), fans), outcomes),
        outcomes[|outcomes| - 1].reading.temp;
      s.fans[fan] >= FanPercent(PwmAtTemp(curve, temp - Slack(settings), None))
  {
    hide PwmAtTemp, Nondecreasing, FanPercent, Decide;
    var start := NvidiaState(Memory(None, now, 0.0), fans);
    NvidiaFansAre(curve, settings, start, outcomes);
    NvidiaFollowsLoop(curve, settings, start, outcomes);
    NeverFarBelowCurve(curve, settings, Memory(None, now, 0.0), NvidiaReadings(outcomes), None);
    var recorded, temp := NvidiaRun(curve, settings, start, outcomes).memory.lastPwm.value,
        outcomes[|outcomes| - 1].reading.temp;
    PercentMonotone(PwmAtTemp(curve, temp - Slack(settings), None), recorded);
  }

  /** The speed can reach 102 percent: it exceeds 100 exactly for the three largest PWM values. */
  lemma FanPercentBound(pwm: nat)
    requires pwm <= PWM_MAX
    ensures 5 * FanPercent(pwm) <= 2 * pwm < 5 * (FanPercent(pwm) + 1)
    ensures FanPercent(pwm) <= 102
    ensures FanPercent(pwm) > 100 <==> pwm >= 253
  {
    assert pwm as real / 2.5 == pwm as real * 2.0 / 5.0;
  }

  /** A threshold survives the conversion exactly when it fits; any other threshold is shrunk. */
  lemma ThresholdKeptIff(x: nat)
    ensures AsI32(x) == x <==> x < 0x8000_0000
    ensures -0x8000_0000 <= AsI32(x) < 0x8000_0000 && (x - AsI32(x)) % 0x1_0000_0000 == 0
    ensures AsI32(x) <= x
  {}
}
