/** The piecewise-linear fan curve: which PWM value a temperature asks for. */
module FanCurve {
  import opened Wrappers

  datatype CurvePoint = CurvePoint(temp: int, speed: real)

  ghost predicate Ascending(s: seq<CurvePoint>) {
    forall i, j :: 0 <= i < j < |s| ==> s[i].temp < s[j].temp
  }

  /** An ordered map from temperature to speed ratio. */
  type FanCurveMap = s: seq<CurvePoint> | Ascending(s)

  /** Conversion to an integer rounds towards zero. */
  function Truncate(x: real): int {
    if x >= 0.0 then x.Floor else -((-x).Floor)
  }

  const PWM_MAX := 255

  /** Conversion to an unsigned byte saturates at both ends. */
  function ToByte(x: real): (pwm: nat)
    ensures pwm <= PWM_MAX
  {
    if x <= 0.0 then 0 else if x >= PWM_MAX as real then PWM_MAX else x.Floor
  }

  function Scaled(max: nat, speed: real): (pwm: nat)
    ensures pwm <= PWM_MAX
  {
    ToByte(max as real * speed)
  }

  /** How many points lie strictly below `temp`; the next point, if any, is at or above it. */
  function PointsBelow(curve: FanCurveMap, temp: int): (k: nat)
    ensures k <= |curve|
    ensures forall i :: 0 <= i < |curve| ==> (i < k <==> curve[i].temp < temp)
  {
    if curve == [] then 0
    else if curve[|curve| - 1].temp < temp then |curve|
    else PointsBelow(curve[..|curve| - 1], temp)
  }

  function SpeedAt(curve: FanCurveMap, temp: int): real
    requires curve != []
  {
    var k := PointsBelow(curve, temp);
    if 0 < k < |curve| then
      var lower, higher := curve[k - 1], curve[k];
      var ratio := (temp - lower.temp) as real / (higher.temp - lower.temp) as real;
      lower.speed + (higher.speed - lower.speed) * ratio
    else if k > 0 then curve[k - 1].speed
    else curve[k].speed
  }

  /** The curve must not be empty, as the program panics otherwise. */
  function PwmAtTemp(curve: FanCurveMap, current: real, crit: Option<real>): (pwm: nat)
    requires curve != []
    ensures pwm <= PWM_MAX
  {
    if crit.Some? && current > crit.value then PWM_MAX
    else Scaled(PWM_MAX, SpeedAt(curve, Truncate(current)))
  }

  datatype Invalid = SpeedOutOfRange

  function Validate(curve: FanCurveMap): (r: Result<(), Invalid>)
    ensures r.Ok? <==> forall i :: 0 <= i < |curve| ==> 0.0 <= curve[i].speed <= 1.0
  {
    if curve == [] then Ok(())
    else if !(0.0 <= curve[0].speed <= 1.0) then Err(SpeedOutOfRange)
    else
      assert forall i :: 1 <= i < |curve| ==> curve[1..][i - 1] == curve[i];
      Validate(curve[1..])
  }

  // ---------- Values on, between and outside the points ----------

  function Min(a: real, b: real): real { if a < b then a else b }

  function Max(a: real, b: real): real { if a < b then b else a }

  lemma RatioBounds(a: int, b: int)
    requires 0 < a <= b
    ensures 0.0 < a as real / b as real <= 1.0
    ensures a == b ==> a as real / b as real == 1.0
  {
    var r := a as real / b as real;
    Product(r, b as real, a as real);
    Product(1.0 - r, b as real, (b - a) as real);
  }

  /** A product with a positive factor has the sign of the other factor. */
  lemma Product(x: real, b: real, xb: real)
    requires b > 0.0 && xb == x * b
    ensures xb < 0.0 <==> x < 0.0
    ensures xb > 0.0 <==> x > 0.0
  {}

  lemma NonNegative(a: real, b: real)
    requires a >= 0.0 && b >= 0.0
    ensures a * b >= 0.0
  {}

  lemma Blend(u: real, v: real, r: real)
    requires 0.0 <= r <= 1.0
    ensures Min(u, v) <= u + (v - u) * r <= Max(u, v)
  {
    if u <= v {
      NonNegative(v - u, r);
      NonNegative(v - u, 1.0 - r);
    } else {
      NonNegative(u - v, r);
      NonNegative(u - v, 1.0 - r);
    }
  }

  /** At a point the speed is that point's; between two points it lies between theirs. */
  lemma {:induction false} SpeedBetween(curve: FanCurveMap, temp: int)
    requires curve != []
    ensures var k := PointsBelow(curve, temp);
      && (k < |curve| && curve[k].temp == temp ==> SpeedAt(curve, temp) == curve[k].speed)
      && (0 < k < |curve| ==>
            Min(curve[k - 1].speed, curve[k].speed) <= SpeedAt(curve, temp) <= Max(curve[k - 1].speed, curve[k].speed))
  {
    var k := PointsBelow(curve, temp);
    if 0 < k < |curve| {
      var lower, higher := curve[k - 1], curve[k];
      RatioBounds(temp - lower.temp, higher.temp - lower.temp);
      Blend(lower.speed, higher.speed, (temp - lower.temp) as real / (higher.temp - lower.temp) as real);
    }
  }

  lemma MonotoneProduct(a: real, x: real, y: real, ax: real, ay: real)
    requires a >= 0.0 && x <= y && ax == a * x && ay == a * y
    ensures ax <= ay
  {
    NonNegative(a, y - x);
    assert a * (y - x) == ay - ax;
  }

  lemma ScaledMonotone(max: nat, x: real, y: real)
    requires x <= y
    ensures Scaled(max, x) <= Scaled(max, y)
  {
    var ax, ay := max as real * x, max as real * y;
    MonotoneProduct(max as real, x, y, ax, ay);
    ToByteMonotone(ax, ay);
  }

  lemma ToByteMonotone(x: real, y: real)
    requires x <= y
    ensures ToByte(x) <= ToByte(y)
  {}

  lemma ScaledFull(max: nat)
    requires max <= PWM_MAX
    ensures Scaled(max, 1.0) == max
  {
    assert max as real * 1.0 == max as real;
  }

  ghost predicate BelowCrit(current: real, crit: Option<real>) {
    crit.Some? ==> current <= crit.value
  }

  /** The PWM value is that share of the maximum, rounded down; a share lies between nothing and all. */
  ghost predicate IsShare(pwm: int, max: nat, share: real) {
    pwm as real <= max as real * share < pwm as real + 1.0
  }

  lemma ScaledIsShare(max: nat, share: real)
    requires 0.0 <= share <= 1.0 && max <= PWM_MAX
    ensures IsShare(Scaled(max, share), max, share)
  {
    NonNegative(max as real, share);
    MonotoneProduct(max as real, share, 1.0, max as real * share, max as real * 1.0);
  }

  /** An integer temperature is a reading without its fraction. */
  lemma TruncateIs(x: real)
    ensures x >= 0.0 ==> Truncate(x) as real <= x < Truncate(x) as real + 1.0
    ensures x <= 0.0 ==> Truncate(x) as real - 1.0 < x <= Truncate(x) as real
  {}

  /** Beyond the critical temperature the fan gets everything, whatever the curve says. */
  lemma PwmBeyondCrit(curve: FanCurveMap, current: real, crit: Option<real>)
    requires curve != [] && !BelowCrit(current, crit)
    ensures PwmAtTemp(curve, current, crit) == 255
  {}

  /** On a curve point the fan gets exactly that point's speed. */
  lemma PwmOnPoint(curve: FanCurveMap, i: nat, current: real, crit: Option<real>)
    requires i < |curve| && Truncate(current) == curve[i].temp && BelowCrit(current, crit)
    ensures PwmAtTemp(curve, current, crit) == Scaled(PWM_MAX, curve[i].speed)
    ensures 0.0 <= curve[i].speed <= 1.0 ==> IsShare(PwmAtTemp(curve, current, crit), 255, curve[i].speed)
  {
    var k := PointsBelow(curve, curve[i].temp);
    assert k <= i && curve[k].temp >= curve[i].temp;
    SpeedBetween(curve, curve[i].temp);
    if 0.0 <= curve[i].speed <= 1.0 { ScaledIsShare(PWM_MAX, curve[i].speed); }
  }

  /** The speed lies on the straight line through both points. */
  ghost predicate OnLine(lower: CurvePoint, higher: CurvePoint, temp: int, speed: real) {
    (speed - lower.speed) * (higher.temp - lower.temp) as real
      == (higher.speed - lower.speed) * (temp - lower.temp) as real
  }

  lemma RatioOnLine(lower: CurvePoint, higher: CurvePoint, temp: int)
    requires lower.temp < higher.temp
    ensures var ratio := (temp - lower.temp) as real / (higher.temp - lower.temp) as real;
      OnLine(lower, higher, temp, lower.speed + (higher.speed - lower.speed) * ratio)
  {
    var h := (higher.temp - lower.temp) as real;
    var ratio := (temp - lower.temp) as real / h;
    assert ratio * h == (temp - lower.temp) as real;
    assert (higher.speed - lower.speed) * ratio * h == (higher.speed - lower.speed) * (ratio * h);
  }

  lemma OneOnLine(lower: CurvePoint, higher: CurvePoint, temp: int, a: real, b: real)
    requires lower.temp < higher.temp && OnLine(lower, higher, temp, a) && OnLine(lower, higher, temp, b)
    ensures a == b
  {
    var h := (higher.temp - lower.temp) as real;
    assert (a - lower.speed) * h - (b - lower.speed) * h == (a - b) * h;
  }

  /**
    Between two neighbouring points the PWM lies between the PWM values of those points, and is the
    share that the straight line through them gives.
   */
  lemma PwmBetweenPoints(curve: FanCurveMap, i: nat, current: real, crit: Option<real>, speed: real)
    requires i + 1 < |curve| && curve[i].temp < Truncate(current) <= curve[i + 1].temp && BelowCrit(current, crit)
    requires OnLine(curve[i], curve[i + 1], Truncate(current), speed)
    ensures Scaled(PWM_MAX, Min(curve[i].speed, curve[i + 1].speed)) <= PwmAtTemp(curve, current, crit)
         <= Scaled(PWM_MAX, Max(curve[i].speed, curve[i + 1].speed))
    ensures 0.0 <= curve[i].speed <= 1.0 && 0.0 <= curve[i + 1].speed <= 1.0 ==>
      0.0 <= speed <= 1.0 && IsShare(PwmAtTemp(curve, current, crit), 255, speed)
  {
    hide Scaled, OnLine;
    var temp := Truncate(current);
    assert PointsBelow(curve, temp) == i + 1;
    SpeedBetween(curve, temp);
    RatioOnLine(curve[i], curve[i + 1], temp);
    OneOnLine(curve[i], curve[i + 1], temp, speed, SpeedAt(curve, temp));
    hide SpeedAt;
    ScaledMonotone(PWM_MAX, Min(curve[i].speed, curve[i + 1].speed), SpeedAt(curve, temp));
    ScaledMonotone(PWM_MAX, SpeedAt(curve, temp), Max(curve[i].speed, curve[i + 1].speed));
    if 0.0 <= speed <= 1.0 { ScaledIsShare(PWM_MAX, speed); }
  }

  /** Beyond the first and last points the PWM stays that of the end point. */
  lemma PwmOutside(curve: FanCurveMap, current: real, crit: Option<real>)
    requires curve != [] && BelowCrit(current, crit)
    ensures Truncate(current) <= curve[0].temp ==>
      PwmAtTemp(curve, current, crit) == Scaled(PWM_MAX, curve[0].speed)
    ensures Truncate(current) >= curve[|curve| - 1].temp ==>
      PwmAtTemp(curve, current, crit) == Scaled(PWM_MAX, curve[|curve| - 1].speed)
    ensures Truncate(current) <= curve[0].temp && 0.0 <= curve[0].speed <= 1.0 ==>
      IsShare(PwmAtTemp(curve, current, crit), 255, curve[0].speed)
    ensures Truncate(current) >= curve[|curve| - 1].temp && 0.0 <= curve[|curve| - 1].speed <= 1.0 ==>
      IsShare(PwmAtTemp(curve, current, crit), 255, curve[|curve| - 1].speed)
  {
    hide Scaled;
    var temp := Truncate(current);
    var k := PointsBelow(curve, temp);
    SpeedBetween(curve, temp);
    assert temp <= curve[0].temp ==> k == 0;
    if temp == curve[|curve| - 1].temp {
      assert k == |curve| - 1;
    }
    if 0.0 <= curve[0].speed <= 1.0 { ScaledIsShare(PWM_MAX, curve[0].speed); }
    if 0.0 <= curve[|curve| - 1].speed <= 1.0 { ScaledIsShare(PWM_MAX, curve[|curve| - 1].speed); }
  }

  // ---------- Monotone curves ----------

  ghost predicate Nondecreasing(curve: FanCurveMap) {
    forall i, j :: 0 <= i < j < |curve| ==> curve[i].speed <= curve[j].speed
  }

  lemma SameSegment(u: real, v: real, a: int, b: int, h: int)
    requires u <= v && a <= b && h > 0
    ensures u + (v - u) * (a as real / h as real) <= u + (v - u) * (b as real / h as real)
  {
    var ra, rb := a as real / h as real, b as real / h as real;
    Product(rb - ra, h as real, (b - a) as real);
    NonNegative(v - u, rb - ra);
  }

  lemma SpeedMonotone(curve: FanCurveMap, t1: int, t2: int)
    requires curve != [] && Nondecreasing(curve) && t1 <= t2
    ensures SpeedAt(curve, t1) <= SpeedAt(curve, t2)
  {
    var k1, k2 := PointsBelow(curve, t1), PointsBelow(curve, t2);
    assert k2 < |curve| ==> curve[k2].temp >= t2;
    SpeedBetween(curve, t1);
    SpeedBetween(curve, t2);
    if k1 < k2 {
      assert SpeedAt(curve, t1) <= curve[k1].speed;
      assert curve[k1].speed <= curve[k2 - 1].speed;
      assert curve[k2 - 1].speed <= SpeedAt(curve, t2);
    } else if 0 < k1 < |curve| {
      var lower, higher := curve[k1 - 1], curve[k1];
      SameSegment(lower.speed, higher.speed, t1 - lower.temp, t2 - lower.temp, higher.temp - lower.temp);
    }
  }

  lemma TruncateMonotone(x: real, y: real)
    requires x <= y
    ensures Truncate(x) <= Truncate(y)
  {}

  /** A hotter GPU never gets less fan, also across the critical temperature. */
  lemma PwmMonotone(curve: FanCurveMap, t1: real, t2: real, crit: Option<real>)
    requires curve != [] && Nondecreasing(curve) && t1 <= t2
    ensures PwmAtTemp(curve, t1, crit) <= PwmAtTemp(curve, t2, crit)
  {
    TruncateMonotone(t1, t2);
    SpeedMonotone(curve, Truncate(t1), Truncate(t2));
    ScaledMonotone(PWM_MAX, SpeedAt(curve, Truncate(t1)), SpeedAt(curve, Truncate(t2)));
  }

  // ---------- Conversion for firmware-controlled fans ----------

  datatype PmfwError = WrongPointCount | NotModifiable

  /** The firmware's own limits on the fan speed, in PWM units. */
  datatype SpeedRange = SpeedRange(start: nat, end: nat)

  function PmfwPoint(point: CurvePoint, range: SpeedRange): (int, nat) {
    var pwm := Scaled(range.end, point.speed);
    (point.temp, if range.start < pwm then pwm else range.start)
  }

  function IntoPmfwCurve(curve: FanCurveMap, pointCount: nat, range: Option<SpeedRange>)
    : Result<seq<(int, nat)>, PmfwError>
  {
    if pointCount != |curve| then Err(WrongPointCount)
    else if range.None? then Err(NotModifiable)
    else Ok(seq(|curve|, i requires 0 <= i < |curve| => PmfwPoint(curve[i], range.value)))
  }

  /** A converted curve keeps the temperatures, never goes below the firmware's minimum and stays monotone. */
  lemma PmfwCurveFits(curve: FanCurveMap, pointCount: nat, range: Option<SpeedRange>)
    ensures var r := IntoPmfwCurve(curve, pointCount, range);
      && (r.Ok? <==> pointCount == |curve| && range.Some?)
      && (r.Ok? ==>
            && |r.value| == pointCount
            && (forall i :: 0 <= i < pointCount ==> r.value[i].0 == curve[i].temp && range.value.start <= r.value[i].1)
            && (Nondecreasing(curve) ==> forall i, j :: 0 <= i < j < pointCount ==> r.value[i].1 <= r.value[j].1))
  {
    var r := IntoPmfwCurve(curve, pointCount, range);
    if r.Ok? && Nondecreasing(curve) {
      forall i, j | 0 <= i < j < pointCount ensures r.value[i].1 <= r.value[j].1 {
        hide Scaled;
        ScaledMonotone(range.value.end, curve[i].speed, curve[j].speed);
      }
    }
  }

  /**
    A validated curve stays within the firmware's range: each point gets its share of the end, or the
    start if that is more.
   */
  lemma {:induction false} PmfwCurveInRange(curve: FanCurveMap, range: SpeedRange, i: nat)
    requires Validate(curve).Ok? && range.start <= range.end <= PWM_MAX && i < |curve|
    ensures range.start <= PmfwPoint(curve[i], range).1 <= range.end
    ensures exists pwm: nat {:trigger IsShare(pwm, range.end, curve[i].speed)} ::
      IsShare(pwm, range.end, curve[i].speed)
      && PmfwPoint(curve[i], range) == (curve[i].temp, if range.start <= pwm then pwm else range.start)
  {
    ScaledIsShare(range.end, curve[i].speed);
    hide Scaled;
    ScaledMonotone(range.end, curve[i].speed, 1.0);
    ScaledFull(range.end);
  }
}
