/**
  The software fan loop: once per interval it reads the temperature and decides whether to write a
  new PWM value. Small temperature changes are ignored, and slowing down is delayed.
 */
module FanControl {
  import opened Wrappers
  import opened FanCurve

  /** Times are in milliseconds; a threshold of zero or less never ignores a change. */
  datatype Settings = Settings(spindownDelay: nat, changeThreshold: real)

  datatype Reading = Reading(temp: real, crit: Option<real>, now: nat)

  /** What the loop remembers: the last recorded PWM, when it was recorded, and for which temperature. */
  datatype Memory = Memory(lastPwm: Option<nat>, lastAt: nat, lastTemp: real)

  datatype Decision = Skipped | SpindownDelayed | SetPwm(pwm: nat)

  function Distance(x: real, y: real): real {
    if x < y then y - x else x - y
  }

  /** Time differences saturate at zero. */
  function Elapsed(since: nat, now: nat): nat {
    if since <= now then now - since else 0
  }

  /** Only a lower PWM can be delayed: the loop never hesitates to speed the fan up. */
  function Decide(curve: FanCurveMap, settings: Settings, m: Memory, r: Reading): (decision: Decision)
    requires curve != []
    ensures decision.SpindownDelayed? ==> m.lastPwm.Some? && PwmAtTemp(curve, r.temp, r.crit) < m.lastPwm.value
    ensures decision.SetPwm? ==> decision.pwm == PwmAtTemp(curve, r.temp, r.crit)
  {
    if Distance(m.lastTemp, r.temp) < settings.changeThreshold then Skipped
    else
      var target := PwmAtTemp(curve, r.temp, r.crit);
      if m.lastPwm.Some? && target < m.lastPwm.value && Elapsed(m.lastAt, r.now) < settings.spindownDelay
      then SpindownDelayed
      else SetPwm(target)
  }

  function Remember(m: Memory, decision: Decision, r: Reading): Memory {
    if decision.SetPwm? then Memory(Some(decision.pwm), r.now, r.temp) else m
  }

  function Tick(curve: FanCurveMap, settings: Settings, m: Memory, r: Reading): Memory
    requires curve != []
  {
    Remember(m, Decide(curve, settings, m, r), r)
  }

  function Run(curve: FanCurveMap, settings: Settings, m: Memory, readings: seq<Reading>): Memory
    requires curve != []
  {
    if readings == [] then m
    else Tick(curve, settings, Run(curve, settings, m, readings[..|readings| - 1]), readings[|readings| - 1])
  }

  ghost predicate SameCrit(readings: seq<Reading>, crit: Option<real>) {
    forall i :: 0 <= i < |readings| ==> readings[i].crit == crit
  }

  // ---------- When the loop acts ----------

  /** The temperature differs from the recorded one by less than the threshold, on either side. */
  ghost predicate WithinThreshold(settings: Settings, m: Memory, r: Reading) {
    r.temp - m.lastTemp < settings.changeThreshold && m.lastTemp - r.temp < settings.changeThreshold
  }

  /** The curve asks for a lower PWM than recorded, and the spin-down delay since the record has not passed. */
  ghost predicate Delayed(curve: FanCurveMap, settings: Settings, m: Memory, r: Reading)
    requires curve != []
  {
    && m.lastPwm.Some? && PwmAtTemp(curve, r.temp, r.crit) < m.lastPwm.value
    && settings.spindownDelay > 0 && r.now < m.lastAt + settings.spindownDelay
  }

  /** Readings on which the loop has nothing to do, given its memory. */
  ghost predicate Idle(curve: FanCurveMap, settings: Settings, m: Memory, readings: seq<Reading>)
    requires curve != []
  {
    forall i :: 0 <= i < |readings| ==>
      WithinThreshold(settings, m, readings[i]) || Delayed(curve, settings, m, readings[i])
  }

  /** Exactly then a tick records nothing; otherwise it records the curve's answer, the time and the temperature. */
  lemma TickRecordsIff(curve: FanCurveMap, settings: Settings, m: Memory, r: Reading)
    requires curve != []
    ensures Decide(curve, settings, m, r).SetPwm? <==>
      !WithinThreshold(settings, m, r) && !Delayed(curve, settings, m, r)
    ensures Tick(curve, settings, m, r) ==
      if WithinThreshold(settings, m, r) || Delayed(curve, settings, m, r) then m
      else Memory(Some(PwmAtTemp(curve, r.temp, r.crit)), r.now, r.temp)
  {
    hide PwmAtTemp;
  }

  /** As long as all readings are within the threshold or delayed, the loop remembers what it did. */
  lemma {:induction false} IdleChangesNothing(curve: FanCurveMap, settings: Settings, m: Memory, readings: seq<Reading>)
    requires curve != [] && Idle(curve, settings, m, readings)
    ensures Run(curve, settings, m, readings) == m
  {
    if readings != [] {
      IdleChangesNothing(curve, settings, m, readings[..|readings| - 1]);
      TickRecordsIff(curve, settings, m, readings[|readings| - 1]);
      hide PwmAtTemp;
    }
  }

  /** The first reading that is neither gets recorded. */
  lemma {:induction false} FirstChangeRecorded(curve: FanCurveMap, settings: Settings, m: Memory,
      idle: seq<Reading>, r: Reading)
    requires curve != [] && Idle(curve, settings, m, idle)
    requires !WithinThreshold(settings, m, r) && !Delayed(curve, settings, m, r)
    ensures Run(curve, settings, m, idle + [r]) == Memory(Some(PwmAtTemp(curve, r.temp, r.crit)), r.now, r.temp)
  {
    IdleChangesNothing(curve, settings, m, idle);
    assert (idle + [r])[..|idle|] == idle;
    TickRecordsIff(curve, settings, m, r);
    hide PwmAtTemp;
  }

  // ---------- Safety: the fan is never much slower than the curve asks ----------

  /** The recorded PWM is the curve's answer for the recorded temperature. */
  ghost predicate OnCurve(curve: FanCurveMap, crit: Option<real>, m: Memory)
    requires curve != []
  {
    m.lastPwm.Some? ==> m.lastPwm.value == PwmAtTemp(curve, m.lastTemp, crit)
  }

  lemma {:induction false} RunOnCurve(curve: FanCurveMap, settings: Settings, m: Memory, readings: seq<Reading>,
      crit: Option<real>)
    requires curve != [] && SameCrit(readings, crit) && OnCurve(curve, crit, m)
    ensures OnCurve(curve, crit, Run(curve, settings, m, readings))
  {
    if readings != [] {
      RunOnCurve(curve, settings, m, readings[..|readings| - 1], crit);
    }
  }

  function Slack(settings: Settings): real {
    if settings.changeThreshold < 0.0 then 0.0 else settings.changeThreshold
  }

  /**
    After every tick of every run in which something has been recorded, the recorded PWM is at least
    what a nondecreasing curve asks for at the current temperature less the change threshold.
   */
  lemma {:induction false} NeverFarBelowCurve(curve: FanCurveMap, settings: Settings, m: Memory,
      readings: seq<Reading>, crit: Option<real>)
    requires curve != [] && Nondecreasing(curve) && readings != []
    requires SameCrit(readings, crit) && OnCurve(curve, crit, m)
    ensures var after, r := Run(curve, settings, m, readings), readings[|readings| - 1];
      after.lastPwm.Some? ==> after.lastPwm.value >= PwmAtTemp(curve, r.temp - Slack(settings), crit)
  {
    hide PwmAtTemp, Nondecreasing;
    var before, r := Run(curve, settings, m, readings[..|readings| - 1]), readings[|readings| - 1];
    RunOnCurve(curve, settings, m, readings[..|readings| - 1], crit);
    PwmMonotone(curve, r.temp - Slack(settings), r.temp, crit);
    if Decide(curve, settings, before, r).Skipped? {
      PwmMonotone(curve, r.temp - Slack(settings), before.lastTemp, crit);
    }
  }

  // ---------- Slowing down is rate limited ----------

  ghost predicate ClockForward(readings: seq<Reading>) {
    forall i, j :: 0 <= i < j < |readings| ==> readings[i].now <= readings[j].now
  }

  /** When the first PWM was recorded, and how many later records lowered it. */
  datatype History = History(memory: Memory, firstAt: Option<nat>, lowered: nat)

  function Recorded(curve: FanCurveMap, settings: Settings, start: nat, readings: seq<Reading>): (h: History)
    requires curve != []
    ensures h.memory == Run(curve, settings, Memory(None, start, 0.0), readings)
  {
    if readings == [] then History(Memory(None, start, 0.0), None, 0)
    else
      var h, r := Recorded(curve, settings, start, readings[..|readings| - 1]), readings[|readings| - 1];
      var decision := Decide(curve, settings, h.memory, r);
      if !decision.SetPwm? then h
      else History(Remember(h.memory, decision, r),
                   if h.firstAt.Some? then h.firstAt else Some(r.now),
                   h.lowered + if h.memory.lastPwm.Some? && decision.pwm < h.memory.lastPwm.value then 1 else 0)
  }

  /** Each lowering costs a full spin-down delay since the first recorded PWM. */
  lemma {:induction false} SpindownRateLimit(curve: FanCurveMap, settings: Settings, start: nat, readings: seq<Reading>)
    requires curve != [] && ClockForward(readings)
    ensures var h := Recorded(curve, settings, start, readings);
      && (h.firstAt.Some? <==> h.memory.lastPwm.Some?)
      && (h.firstAt.None? ==> h.lowered == 0)
      && (h.firstAt.Some? ==> readings != [] && h.memory.lastAt <= readings[|readings| - 1].now)
      && (h.firstAt.Some? ==> h.firstAt.value + h.lowered * settings.spindownDelay <= h.memory.lastAt)
  {
    if readings != [] {
      var before := readings[..|readings| - 1];
      SpindownRateLimit(curve, settings, start, before);
      var h, r := Recorded(curve, settings, start, before), readings[|readings| - 1];
      var delay := settings.spindownDelay;
      assert (h.lowered + 1) * delay == h.lowered * delay + delay;
    }
  }

  // ---------- Settling on a constant temperature ----------

  ghost predicate Settled(curve: FanCurveMap, settings: Settings, m: Memory, temp: real, crit: Option<real>)
    requires curve != []
  {
    || m.lastPwm == Some(PwmAtTemp(curve, temp, crit))
    || Distance(m.lastTemp, temp) < settings.changeThreshold
  }

  ghost predicate Constant(readings: seq<Reading>, temp: real, crit: Option<real>) {
    forall i :: 0 <= i < |readings| ==> readings[i].temp == temp && readings[i].crit == crit
  }

  /** Once settled, the loop stays settled as long as the temperature does not change. */
  lemma {:induction false} SettledStays(curve: FanCurveMap, settings: Settings, m: Memory, readings: seq<Reading>,
      temp: real, crit: Option<real>)
    requires curve != [] && Constant(readings, temp, crit) && Settled(curve, settings, m, temp, crit)
    ensures Settled(curve, settings, Run(curve, settings, m, readings), temp, crit)
  {
    if readings != [] {
      SettledStays(curve, settings, m, readings[..|readings| - 1], temp, crit);
    }
  }

  /** Ticks come at least `interval` apart, the first not before the last record. */
  ghost predicate Spaced(readings: seq<Reading>, since: nat, interval: nat) {
    && (readings != [] ==> since <= readings[0].now)
    && forall i :: 0 < i < |readings| ==> readings[i - 1].now + interval <= readings[i].now
  }

  lemma {:induction false} SpacedTime(readings: seq<Reading>, since: nat, interval: nat, k: nat)
    requires Spaced(readings, since, interval) && k < |readings|
    ensures readings[k].now >= since + k * interval
  {
    if k > 0 {
      SpacedTime(readings, since, interval, k - 1);
      assert k * interval == (k - 1) * interval + interval;
    }
  }

  /** As long as the loop is not settled, it has only been waiting out the spin-down delay. */
  lemma {:induction false} UnsettledWaits(curve: FanCurveMap, settings: Settings, m: Memory, readings: seq<Reading>,
      temp: real, crit: Option<real>)
    requires curve != [] && Constant(readings, temp, crit)
    requires !Settled(curve, settings, Run(curve, settings, m, readings), temp, crit)
    ensures Run(curve, settings, m, readings) == m
    ensures readings != [] ==> Elapsed(m.lastAt, readings[|readings| - 1].now) < settings.spindownDelay
  {
    if readings != [] {
      var before, r := readings[..|readings| - 1], readings[|readings| - 1];
      UnsettledWaits(curve, settings, m, before, temp, crit);
    }
  }

  function CeilDiv(a: nat, b: nat): nat
    requires b > 0
  {
    (a + b - 1) / b
  }

  lemma CeilDivCovers(a: nat, b: nat)
    requires b > 0
    ensures CeilDiv(a, b) * b >= a
  {
    assert a + b - 1 == CeilDiv(a, b) * b + (a + b - 1) % b;
  }

  /** The spin-down delay can hold the loop back for a bounded number of ticks only. */
  lemma {:induction false} SettlesInTime(curve: FanCurveMap, settings: Settings, m: Memory, readings: seq<Reading>,
      temp: real, crit: Option<real>, interval: nat)
    requires curve != [] && interval > 0
    requires Constant(readings, temp, crit) && Spaced(readings, m.lastAt, interval)
    requires |readings| >= CeilDiv(settings.spindownDelay, interval) + 1
    ensures Settled(curve, settings, Run(curve, settings, m, readings), temp, crit)
  {
    if !Settled(curve, settings, Run(curve, settings, m, readings), temp, crit) {
      UnsettledWaits(curve, settings, m, readings, temp, crit);
      var n := |readings| - 1;
      SpacedTime(readings, m.lastAt, interval, n);
      CeilDivCovers(settings.spindownDelay, interval);
      Multiply(CeilDiv(settings.spindownDelay, interval), n, interval);
      assert false;
    }
  }

  lemma Multiply(a: nat, b: nat, c: nat)
    requires a <= b
    ensures a * c <= b * c
  {
    assert (b - a) * c >= 0;
  }
}
