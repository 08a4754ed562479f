/** What the curve built by `CubicSpline` looks like: at the samples, between them, and when drawn. */
module CubicSplineProperties {
  import opened CubicSpline

  // ---------- Slope and curvature are the derivatives of the cubic ----------

  lemma TaylorExpansion(g: Segment, u: real, e: real)
    ensures g.At(u + e) == g.At(u) + e * g.SlopeAt(u) + e * e * g.CurvatureAt(u) / 2.0 + g.d * (e * e * e)
    ensures forall time :: g.Evaluate(time) == g.At((time - g.x) as real)
  {
    assert (u + e) * (u + e) == u * u + 2.0 * (u * e) + e * e;
    assert (u + e) * (u + e) * (u + e) == u * u * u + 3.0 * (u * u * e) + 3.0 * (u * e * e) + e * e * e;
    assert g.b * (u + e) == g.b * u + g.b * e;
    assert g.c * (u * u + 2.0 * (u * e) + e * e) == g.c * (u * u) + 2.0 * (g.c * u * e) + g.c * (e * e);
    assert g.d * (u * u * u + 3.0 * (u * u * e) + 3.0 * (u * e * e) + e * e * e)
        == g.d * (u * u * u) + 3.0 * (g.d * (u * u) * e) + 3.0 * (g.d * u * (e * e)) + g.d * (e * e * e);
    assert e * g.SlopeAt(u) == g.b * e + 2.0 * (g.c * u * e) + 3.0 * (g.d * (u * u) * e);
    assert e * e * g.CurvatureAt(u) / 2.0 == g.c * (e * e) + 3.0 * (g.d * u * (e * e));
  }

  // ---------- One segment ----------

  ghost function StartSlope(chord: real, h: real, d0: real, d1: real): real {
    chord - h * (2.0 * d0 + d1) / 6.0
  }

  ghost function EndSlope(chord: real, h: real, d0: real, d1: real): real {
    chord + h * (d0 + 2.0 * d1) / 6.0
  }

  lemma CubicThroughEnds(h: real, y0: real, y1: real, d0: real, d1: real, chord: real, g: Segment)
    requires h > 0.0 && chord * h == y1 - y0
    requires g.a == y0 && g.b == StartSlope(chord, h, d0, d1) && g.c == d0 / 2.0 && g.d * (6.0 * h) == d1 - d0
    ensures g.At(h) == y1
    ensures g.SlopeAt(h) == EndSlope(chord, h, d0, d1)
    ensures g.CurvatureAt(h) == d1
  {
    var third := g.d * h;
    assert third == (d1 - d0) / 6.0;
    assert g.d * (h * h) == third * h;
    assert g.d * (h * h * h) == third * (h * h);
    assert g.b * h == (y1 - y0) - (h * h) * (2.0 * d0 + d1) / 6.0 by {
      assert g.b * h == chord * h - (h * (2.0 * d0 + d1) / 6.0) * h;
    }
  }

  /** Segment `i` runs from sample `i` to sample `i + 1` with curvatures `d[i]` and `d[i + 1]`. */
  lemma SegmentEnds(data: seq<Sample>, d: seq<real>, i: nat)
    requires Drawable(data) && |d| == |data| && i + 1 < |data|
    ensures data[i].time < data[i + 1].time
    ensures var g, h := SegmentOf(data, d, i), Dx(data, i);
      && g.At(0.0) == data[i].value && g.At(h) == data[i + 1].value
      && g.CurvatureAt(0.0) == d[i] && g.CurvatureAt(h) == d[i + 1]
      && g.SlopeAt(0.0) == StartSlope(Chord(data, i), h, d[i], d[i + 1])
      && g.SlopeAt(h) == EndSlope(Chord(data, i), h, d[i], d[i + 1])
  {
    DxPositive(data, i);
    var g, h := SegmentOf(data, d, i), Dx(data, i);
    CubicThroughEnds(h, data[i].value, data[i + 1].value, d[i], d[i + 1], Chord(data, i), g);
  }

  // ---------- The joints between segments ----------

  /** Slope of segment `i` minus slope of segment `i - 1`, at sample `i`. */
  ghost function SlopeGap(data: seq<Sample>, d: seq<real>, i: nat): real
    requires Drawable(data) && |d| == |data| && 1 <= i < |data| - 1
  {
    DxPositive(data, i - 1); DxPositive(data, i);
    SegmentOf(data, d, i).SlopeAt(0.0) - SegmentOf(data, d, i - 1).SlopeAt(Dx(data, i - 1))
  }

  ghost function Jump(h0: real, h1: real, d0: real, d2: real): real {
    (h1 - h0) * (d0 - d2) / 6.0
  }

  lemma GapAlgebra(h0: real, h1: real, d0: real, d1: real, d2: real, c0: real, c1: real)
    requires RowEquation(h0, h1, d0, d1, d2, 6.0 * (c1 - c0))
    ensures StartSlope(c1, h1, d1, d2) - EndSlope(c0, h0, d0, d1) == Jump(h0, h1, d0, d2)
  {
    assert 2.0 * (h0 + h1) * d1 == 2.0 * (h0 * d1) + 2.0 * (h1 * d1);
    assert h1 * (2.0 * d1 + d2) == 2.0 * (h1 * d1) + h1 * d2;
    assert h0 * (d0 + 2.0 * d1) == h0 * d0 + 2.0 * (h0 * d1);
    assert (h1 - h0) * (d0 - d2) == h1 * d0 - h1 * d2 - h0 * d0 + h0 * d2;
  }

  /**
    The program weighs the two neighbours of a row the other way round from the textbook natural
    spline, so the slope jumps at a sample by exactly this much.
   */
  lemma SlopeGapFormula(data: seq<Sample>, d: seq<real>, i: nat)
    requires Drawable(data) && Solves(data, d) && 1 <= i < |data| - 1
    ensures SlopeGap(data, d, i) == Jump(Dx(data, i - 1), Dx(data, i), d[i - 1], d[i + 1])
  {
    hide SegmentOf, Chord, Dx, RowEquation, Jump, StartSlope, EndSlope, Segment.SlopeAt, Segment.At;
    hide Segment.CurvatureAt;
    SegmentEnds(data, d, i - 1);
    SegmentEnds(data, d, i);
    assert RowHolds(data, d, i);
    GapAlgebra(Dx(data, i - 1), Dx(data, i), d[i - 1], d[i], d[i + 1], Chord(data, i - 1), Chord(data, i));
  }

  ghost predicate JoinsSmoothly(left: Piece, right: Piece) {
    var h := (left.second - left.first) as real;
    && left.second == right.first
    && left.segment.At(h) == right.segment.At(0.0)
    && left.segment.SlopeAt(h) == right.segment.SlopeAt(0.0)
    && left.segment.CurvatureAt(h) == right.segment.CurvatureAt(0.0)
  }

  /** Value and second derivative always agree at a joint, so it is smooth exactly when the slope is. */
  lemma JointSmoothIff(data: seq<Sample>, d: seq<real>, i: nat)
    requires Drawable(data) && Solves(data, d) && 1 <= i < |Pieces(data, d)|
    ensures JoinsSmoothly(Pieces(data, d)[i - 1], Pieces(data, d)[i]) <==> SlopeGap(data, d, i) == 0.0
  {
    SegmentEnds(data, d, i - 1);
    SegmentEnds(data, d, i);
  }

  // ---------- Exactly which sampling times give a smooth curve ----------

  ghost predicate HasTimes(data: seq<Sample>, times: seq<int>) {
    && |data| == |times|
    && forall k :: 0 <= k < |times| ==> data[k].time == times[k]
  }

  ghost predicate Increasing(times: seq<int>) {
    |times| >= 1 && forall i, j :: 0 <= i < j < |times| ==> times[i] < times[j]
  }

  /** A drawn joint at sample `i` has equal spacing on both sides. */
  predicate EvenAt(times: seq<int>, i: nat)
    requires 1 <= i < |times| - 1
  {
    times[i + 1] - times[i] == times[i] - times[i - 1]
  }

  ghost predicate SplineOver(times: seq<int>, data: seq<Sample>, d: seq<real>) {
    HasTimes(data, times) && Drawable(data) && Solves(data, d)
  }

  /** The change of chord slope that row `i` demands. */
  ghost function Turn(h0: real, h1: real, d0: real, d1: real, d2: real): real {
    (h1 * d0 + 2.0 * (h0 + h1) * d1 + h0 * d2) / 6.0
  }

  /** Chord slopes, and sample values with those chords, that make `d` the second derivatives. */
  ghost function ChordFor(times: seq<int>, d: seq<real>, k: nat): real
    requires |d| == |times| && k + 1 < |times|
  {
    if k == 0 then 0.0 else
      var h0, h1 := (times[k] - times[k - 1]) as real, (times[k + 1] - times[k]) as real;
      ChordFor(times, d, k - 1) + Turn(h0, h1, d[k - 1], d[k], d[k + 1])
  }

  ghost function ValueFor(times: seq<int>, d: seq<real>, k: nat): real
    requires |d| == |times| && k < |times|
  {
    if k == 0 then 0.0 else
      ValueFor(times, d, k - 1) + (times[k] - times[k - 1]) as real * ChordFor(times, d, k - 1)
  }

  lemma QuotientOfProduct(a: real, h: real, x: real)
    requires h > 0.0 && a == h * x
    ensures a / h == x
  {
    assert (a / h) * h == a;
    assert (a / h - x) * h == 0.0;
  }

  lemma ChordOfValues(times: seq<int>, data: seq<Sample>, d: seq<real>, i: nat)
    requires |d| == |times| && HasTimes(data, times) && Drawable(data) && i + 1 < |data|
    requires data[i].value == ValueFor(times, d, i) && data[i + 1].value == ValueFor(times, d, i + 1)
    ensures Chord(data, i) == ChordFor(times, d, i)
  {
    hide ChordFor;
    DxPositive(data, i);
    QuotientOfProduct(data[i + 1].value - data[i].value, Dx(data, i), ChordFor(times, d, i));
  }

  lemma RowFromTurn(data: seq<Sample>, d: seq<real>, i: nat)
    requires Drawable(data) && |d| == |data| && 1 <= i < |data| - 1
    requires Chord(data, i) == Chord(data, i - 1) + Turn(Dx(data, i - 1), Dx(data, i), d[i - 1], d[i], d[i + 1])
    ensures RowHolds(data, d, i)
  {
    hide Chord, Dx;
  }

  ghost predicate HasValuesFor(data: seq<Sample>, times: seq<int>, d: seq<real>) {
    && HasTimes(data, times) && |d| == |times|
    && forall k :: 0 <= k < |times| ==> data[k].value == ValueFor(times, d, k)
  }

  lemma RowOfValues(times: seq<int>, data: seq<Sample>, d: seq<real>, i: nat)
    requires Drawable(data) && HasValuesFor(data, times, d) && 1 <= i < |data| - 1
    ensures RowHolds(data, d, i)
  {
    hide Chord, ValueFor, Turn, RowHolds;
    ChordOfValues(times, data, d, i - 1);
    ChordOfValues(times, data, d, i);
    assert ChordFor(times, d, i)
        == ChordFor(times, d, i - 1) + Turn(Dx(data, i - 1), Dx(data, i), d[i - 1], d[i], d[i + 1]);
    RowFromTurn(data, d, i);
  }

  /** Every vector with zero ends is the vector of second derivatives of some data at the given times. */
  lemma EveryCurvatureOccurs(times: seq<int>, d: seq<real>) returns (data: seq<Sample>)
    requires Increasing(times) && |d| == |times| && d[0] == 0.0 && d[|d| - 1] == 0.0
    ensures SplineOver(times, data, d)
  {
    hide RowHolds, ValueFor;
    data := seq(|times|, k requires 0 <= k < |times| => Sample(times[k], ValueFor(times, d, k)));
    forall i | 1 <= i < |data| - 1 ensures RowHolds(data, d, i) {
      RowOfValues(times, data, d, i);
    }
  }

  lemma UnevenGap(times: seq<int>, i: nat) returns (data: seq<Sample>, d: seq<real>)
    requires Increasing(times) && 1 <= i < |times| - 2 && !EvenAt(times, i)
    ensures SplineOver(times, data, d) && SlopeGap(data, d, i) != 0.0
  {
    d := seq(|times|, k => if k == i + 1 then 1.0 else 0.0);
    data := EveryCurvatureOccurs(times, d);
    SlopeGapFormula(data, d, i);
    assert Dx(data, i) != Dx(data, i - 1);
  }

  /** The slope is continuous at a drawn joint for all data exactly when that joint is evenly spaced. */
  lemma SlopeContinuousIffEven(times: seq<int>, i: nat)
    requires Increasing(times) && 1 <= i < |times| - 2
    ensures (forall data, d :: SplineOver(times, data, d) ==> SlopeGap(data, d, i) == 0.0) <==> EvenAt(times, i)
  {
    if EvenAt(times, i) {
      forall data, d | SplineOver(times, data, d) ensures SlopeGap(data, d, i) == 0.0 {
        SlopeGapFormula(data, d, i);
        assert Dx(data, i) == Dx(data, i - 1);
      }
    } else {
      var data, d := UnevenGap(times, i);
    }
  }

  ghost predicate SmoothCurve(pieces: seq<Piece>) {
    forall i :: 1 <= i < |pieces| ==> JoinsSmoothly(pieces[i - 1], pieces[i])
  }

  ghost predicate DrawnOver(times: seq<int>, data: seq<Sample>, pieces: seq<Piece>) {
    HasTimes(data, times) && Drawable(data) && IsSplineOf(pieces, data)
  }

  /**
    The drawn curve is twice continuously differentiable, whatever the sampled values, exactly when
    the sampling times are evenly spaced up to the last drawn sample.
   */
  lemma CurveSmoothIffEven(times: seq<int>)
    requires Increasing(times)
    ensures (forall data, pieces :: DrawnOver(times, data, pieces) ==> SmoothCurve(pieces))
       <==> (forall i :: 1 <= i < |times| - 2 ==> EvenAt(times, i))
  {
    if forall i :: 1 <= i < |times| - 2 ==> EvenAt(times, i) {
      forall data, pieces | DrawnOver(times, data, pieces) ensures SmoothCurve(pieces) {
        EvenCurveSmooth(times, data, pieces);
      }
    } else {
      var i :| 1 <= i < |times| - 2 && !EvenAt(times, i);
      var data, d := UnevenGap(times, i);
      JointSmoothIff(data, d, i);
      assert DrawnOver(times, data, Pieces(data, d));
      assert !SmoothCurve(Pieces(data, d));
    }
  }

  lemma EvenCurveSmooth(times: seq<int>, data: seq<Sample>, pieces: seq<Piece>)
    requires Increasing(times) && DrawnOver(times, data, pieces)
    requires forall i :: 1 <= i < |times| - 2 ==> EvenAt(times, i)
    ensures SmoothCurve(pieces)
  {
    var d: seq<real> :| Solves(data, d) && pieces == Pieces(data, d);
    forall i | 1 <= i < |pieces| ensures JoinsSmoothly(pieces[i - 1], pieces[i]) {
      assert EvenAt(times, i);
      assert Dx(data, i) == Dx(data, i - 1);
      hide SlopeGap, JoinsSmoothly, SegmentOf, Dx;
      JointSmoothIff(data, d, i);
      SlopeGapFormula(data, d, i);
    }
  }

  // ---------- Straight lines ----------

  ghost predicate OnLine(data: seq<Sample>, intercept: real, slope: real) {
    forall k :: 0 <= k < |data| ==> data[k].value == intercept + slope * data[k].time as real
  }

  lemma ChordOfLine(data: seq<Sample>, intercept: real, slope: real, i: nat)
    requires Drawable(data) && OnLine(data, intercept, slope) && i + 1 < |data|
    ensures Chord(data, i) == slope
  {
    DxPositive(data, i);
    assert data[i + 1].value - data[i].value == Dx(data, i) * slope;
    QuotientOfProduct(data[i + 1].value - data[i].value, Dx(data, i), slope);
  }

  lemma FlatSegment(data: seq<Sample>, d: seq<real>, i: nat, slope: real)
    requires Drawable(data) && |d| == |data| && i + 1 < |data| && data[i].time < data[i + 1].time
    requires d[i] == 0.0 && d[i + 1] == 0.0 && Chord(data, i) == slope
    ensures SegmentOf(data, d, i) == Segment(data[i].value, slope, 0.0, 0.0, data[i].time)
  {
    var h := Dx(data, i);
    DxPositive(data, i);
    assert h * (2.0 * d[i] + d[i + 1]) == 0.0;
  }

  lemma LineHasNoCurvature(data: seq<Sample>, intercept: real, slope: real, d: seq<real>)
    requires Drawable(data) && OnLine(data, intercept, slope) && Solves(data, d)
    ensures forall i :: 0 <= i < |d| ==> d[i] == 0.0
  {
    var zero := seq(|data|, i => 0.0);
    forall i | 1 <= i < |data| - 1 ensures RowHolds(data, zero, i) {
      ChordOfLine(data, intercept, slope, i - 1);
      ChordOfLine(data, intercept, slope, i);
      hide Chord, Dx;
    }
    SecondDerivativesUnique(data, d, zero);
  }

  lemma LinearSegment(value: real, slope: real, x: int, t: int, intercept: real)
    requires value == intercept + slope * x as real
    ensures Segment(value, slope, 0.0, 0.0, x).Evaluate(t) == intercept + slope * t as real
  {
    assert slope * (t - x) as real == slope * t as real - slope * x as real;
  }

  /** Samples on a straight line are drawn as that line. */
  lemma LineReproduced(data: seq<Sample>, intercept: real, slope: real, pieces: seq<Piece>)
    requires Drawable(data) && OnLine(data, intercept, slope) && IsSplineOf(pieces, data)
    ensures forall i, t: int :: 0 <= i < |pieces| ==> pieces[i].segment.Evaluate(t) == intercept + slope * t as real
  {
    hide SegmentOf, Chord, Dx, Segment.Evaluate;
    var d: seq<real> :| Solves(data, d) && pieces == Pieces(data, d);
    LineHasNoCurvature(data, intercept, slope, d);
    forall i, t: int | 0 <= i < |pieces|
      ensures pieces[i].segment.Evaluate(t) == intercept + slope * t as real
    {
      ChordOfLine(data, intercept, slope, i);
      FlatSegment(data, d, i, slope);
      LinearSegment(data[i].value, slope, data[i].time, t, intercept);
    }
  }

  // ---------- What is drawn ----------

  /** The samples of one piece, one per millisecond of its half-open period. */
  function Millis(piece: Piece): seq<(int, real)> {
    seq(if piece.first <= piece.second then piece.second - piece.first else 0, k requires 0 <= k =>
      (piece.first + k, piece.segment.Evaluate(piece.first + k)))
  }

  function DrawnPoints(pieces: seq<Piece>): seq<(int, real)> {
    if pieces == [] then [] else
      var last := |pieces| - 1;
      DrawnPoints(pieces[..last]) + Millis(pieces[last])
  }

  ghost predicate Contiguous(pieces: seq<Piece>) {
    && (forall i :: 0 <= i < |pieces| ==> pieces[i].first <= pieces[i].second)
    && (forall i :: 0 < i < |pieces| ==> pieces[i - 1].second == pieces[i].first)
  }

  lemma {:induction false} PeriodsOrdered(pieces: seq<Piece>, i: nat, j: nat)
    requires Contiguous(pieces) && i <= j < |pieces|
    ensures pieces[i].first <= pieces[j].first && (i < j ==> pieces[i].second <= pieces[j].first)
  {
    if i < j {
      PeriodsOrdered(pieces, i, j - 1);
    }
  }

  /** The point for time `t`, in a curve drawn from `start`, lies on the piece's cubic. */
  ghost predicate DrawnAt(points: seq<(int, real)>, start: int, piece: Piece, t: int) {
    0 <= t - start < |points| && points[t - start] == (t, piece.segment.At((t - piece.segment.x) as real))
  }

  lemma {:induction false} DrawnPointsContiguous(pieces: seq<Piece>)
    requires Contiguous(pieces) && pieces != []
    ensures var points, start := DrawnPoints(pieces), pieces[0].first;
      && |points| == pieces[|pieces| - 1].second - start
      && (forall k :: 0 <= k < |points| ==> points[k].0 == start + k)
      && (forall i, t :: 0 <= i < |pieces| && pieces[i].first <= t < pieces[i].second ==>
            DrawnAt(points, start, pieces[i], t))
  {
    hide Segment.At;
    var last := |pieces| - 1;
    var rest, points, start := pieces[..last], DrawnPoints(pieces), pieces[0].first;
    if last == 0 {
      assert DrawnPoints(rest) == [];
    } else {
      DrawnPointsContiguous(rest);
      assert rest[last - 1] == pieces[last - 1];
    }
    var before := DrawnPoints(rest);
    assert |before| == pieces[last].first - start;
    assert points == before + Millis(pieces[last]);
    forall i, t | 0 <= i < |pieces| && pieces[i].first <= t < pieces[i].second
      ensures DrawnAt(points, start, pieces[i], t)
    {
      if i < last {
        assert rest[i] == pieces[i];
        assert DrawnAt(before, start, rest[i], t);
        assert points[t - start] == before[t - start];
      } else {
        PeriodsOrdered(pieces, 0, last);
        assert points[t - start] == Millis(pieces[last])[t - pieces[last].first];
        assert Millis(pieces[last])[t - pieces[last].first] == (t, pieces[last].segment.Evaluate(t));
      }
    }
  }

  /**
    The cubic through two neighbouring samples `h` apart, with second derivatives `d0` and `d1` there, at
    the fraction `u` of the way: the chord, bent by the second derivatives.
   */
  ghost function BentChord(y0: real, y1: real, d0: real, d1: real, h: real, u: real): real {
    var v := 1.0 - u;
    y0 * v + y1 * u + h * h / 6.0 * (d0 * (v * v * v - v) + d1 * (u * u * u - u))
  }

  /** `d` weighted by the square of the spacing and by a power of the fraction. */
  ghost function Term(h: real, power: real, d: real): real {
    h * h * (power * d)
  }

  lemma LinearTerm(b: real, chord: real, d0: real, d1: real, h: real, u: real)
    requires b * h == chord - h * (h * (2.0 * d0 + d1)) / 6.0
    ensures b * (u * h) == u * chord - Term(h, u, d0) / 3.0 - Term(h, u, d1) / 6.0
  {
    assert b * (u * h) == u * (b * h);
    assert u * (h * (h * (2.0 * d0 + d1))) == 2.0 * (h * h * (u * d0)) + h * h * (u * d1);
  }

  lemma QuadraticTerm(c: real, d0: real, h: real, u: real)
    requires c == d0 / 2.0
    ensures c * (u * h * (u * h)) == Term(h, u * u, d0) / 2.0
  {
    assert d0 * (u * h * (u * h)) == h * h * (u * u * d0);
  }

  lemma CubicTerm(d: real, d0: real, d1: real, h: real, u: real)
    requires d * (6.0 * h) == d1 - d0
    ensures d * (u * h * (u * h) * (u * h)) == Term(h, u * u * u, d1) / 6.0 - Term(h, u * u * u, d0) / 6.0
  {
    var hh, uuu := h * h, u * u * u;
    assert d * (u * h * (u * h) * (u * h)) == (d * (6.0 * h)) * (hh * uuu) / 6.0;
    assert (d1 - d0) * (hh * uuu) == hh * (uuu * d1) - hh * (uuu * d0);
  }

  lemma BentChordTerms(y0: real, y1: real, d0: real, d1: real, h: real, u: real)
    ensures BentChord(y0, y1, d0, d1, h, u) == y0 + u * (y1 - y0)
      + Term(h, u * u, d0) / 2.0 - Term(h, u, d0) / 3.0 - Term(h, u * u * u, d0) / 6.0
      + Term(h, u * u * u, d1) / 6.0 - Term(h, u, d1) / 6.0
  {
    var v, uu, uuu := 1.0 - u, u * u, u * u * u;
    assert v * v * v - v == 3.0 * uu - 2.0 * u - uuu;
    assert d0 * (v * v * v - v) == 3.0 * (uu * d0) - 2.0 * (u * d0) - uuu * d0;
    assert d1 * (uuu - u) == uuu * d1 - u * d1;
    Distribute5(h * h, uu * d0, u * d0, uuu * d0, uuu * d1, u * d1);
  }

  lemma Distribute5(k: real, a: real, b: real, c: real, d: real, e: real)
    ensures k / 6.0 * (3.0 * a - 2.0 * b - c + (d - e))
      == k * a / 2.0 - k * b / 3.0 - k * c / 6.0 + k * d / 6.0 - k * e / 6.0
  {}

  lemma CubicIsBentChord(y0: real, y1: real, d0: real, d1: real, h: real, u: real, g: Segment)
    requires h > 0.0 && g.a == y0 && g.c == d0 / 2.0 && g.d * (6.0 * h) == d1 - d0
    requires g.b * h == y1 - y0 - h * (h * (2.0 * d0 + d1)) / 6.0
    ensures g.At(u * h) == BentChord(y0, y1, d0, d1, h, u)
  {
    hide BentChord, Term;
    AtTerms(g, u * h);
    hide Segment.At;
    BentChordTerms(y0, y1, d0, d1, h, u);
    LinearTerm(g.b, y1 - y0, d0, d1, h, u);
    QuadraticTerm(g.c, d0, h, u);
    CubicTerm(g.d, d0, d1, h, u);
  }

  lemma AtTerms(g: Segment, e: real)
    ensures g.At(e) == g.a + g.b * e + g.c * (e * e) + g.d * (e * e * e)
  {}

  /** The curve is drawn at time `t`, between samples `i` and `i + 1`, with the value of the bent chord. */
  ghost predicate DrawnBetween(data: seq<Sample>, d: seq<real>, points: seq<(int, real)>, i: nat, t: int)
    requires Drawable(data) && |d| == |data| && i + 1 < |data|
  {
    var start, h := data[0].time, (data[i + 1].time - data[i].time) as real;
    && h > 0.0 && 0 <= t - start < |points|
    && points[t - start] ==
        (t, BentChord(data[i].value, data[i + 1].value, d[i], d[i + 1], h, (t - data[i].time) as real / h))
  }

  lemma FractionOf(e: real, h: real)
    requires h > 0.0
    ensures e / h * h == e
  {}

  lemma SegmentIsBentChord(data: seq<Sample>, d: seq<real>, i: nat, e: real)
    requires Drawable(data) && |d| == |data| && i + 1 < |data| && data[i].time < data[i + 1].time
    ensures var h := (data[i + 1].time - data[i].time) as real;
      SegmentOf(data, d, i).At(e) == BentChord(data[i].value, data[i + 1].value, d[i], d[i + 1], h, e / h)
  {
    var h, g := Dx(data, i), SegmentOf(data, d, i);
    FractionOf(data[i + 1].value - data[i].value, h);
    FractionOf(d[i + 1] - d[i], 6.0 * h);
    FractionOf(e, h);
    var y := (data[i + 1].value - data[i].value) / h;
    assert g.b * h == y * h - h * (h * (2.0 * d[i] + d[i + 1])) / 6.0;
    hide SegmentOf, Segment.At, BentChord;
    CubicIsBentChord(data[i].value, data[i + 1].value, d[i], d[i + 1], h, e / h, g);
  }

  lemma PiecesContiguous(data: seq<Sample>, d: seq<real>)
    requires Drawable(data) && |d| == |data|
    ensures Contiguous(Pieces(data, d)) && |Pieces(data, d)| == if |data| <= 2 then 0 else |data| - 2
  {
    hide SegmentOf;
  }

  lemma PieceIs(data: seq<Sample>, d: seq<real>, i: nat)
    requires Drawable(data) && |d| == |data| && i + 2 < |data| && data[i].time < data[i + 1].time
    ensures i < |Pieces(data, d)|
    ensures Pieces(data, d)[i] == Piece(data[i].time, data[i + 1].time, SegmentOf(data, d, i))
  {
    hide Drawable, SegmentOf;
  }

  lemma SegmentStart(data: seq<Sample>, d: seq<real>, i: nat)
    requires Drawable(data) && |d| == |data| && i + 1 < |data| && data[i].time < data[i + 1].time
    ensures SegmentOf(data, d, i).x == data[i].time
  {}

  lemma {:induction false} PointBetween(data: seq<Sample>, d: seq<real>, pieces: seq<Piece>, i: nat, t: int)
    requires Drawable(data) && |d| == |data| && pieces == Pieces(data, d) && i + 2 < |data|
    requires data[i].time <= t < data[i + 1].time
    ensures DrawnBetween(data, d, DrawnPoints(pieces), i, t)
  {
    hide SegmentOf, Segment.At, BentChord, DrawnPoints, Pieces, Contiguous;
    PiecesContiguous(data, d);
    DxPositive(data, 0);
    DxPositive(data, i);
    PieceIs(data, d, 0);
    PieceIs(data, d, i);
    SegmentStart(data, d, i);
    SegmentIsBentChord(data, d, i, (t - data[i].time) as real);
    DrawnPointsContiguous(pieces);
    assert DrawnAt(DrawnPoints(pieces), pieces[0].first, pieces[i], t);
    hide Drawable;
  }

  /**
    Every millisecond from the first sample up to, not including, the next-to-last sample is drawn
    exactly once, in order, with the value of the cubic that bends the chord between its neighbouring
    samples by their second derivatives, the solution of the samples' system.
   */
  lemma {:induction false} DrawnSpline(data: seq<Sample>, pieces: seq<Piece>, d: seq<real>)
    requires Drawable(data) && IsSplineOf(pieces, data) && Solves(data, d)
    ensures var points, n := DrawnPoints(pieces), |data|;
      && |points| == (if n <= 2 then 0 else data[n - 2].time - data[0].time)
      && (forall k :: 0 <= k < |points| ==> points[k].0 == data[0].time + k)
      && (forall i, t :: 0 <= i < n - 2 && data[i].time <= t < data[i + 1].time ==>
            DrawnBetween(data, d, points, i, t))
  {
    hide SegmentOf, Segment.At, RowHolds, DrawnAt, DrawnBetween;
    assert DrawnPoints([]) == [];
    var e: seq<real> :| Solves(data, e) && pieces == Pieces(data, e);
    SecondDerivativesUnique(data, d, e);
    if |data| > 2 {
      assert Contiguous(pieces);
      hide DrawnPoints, Solves, Contiguous;
      DrawnPointsContiguous(pieces);
      forall i, t | 0 <= i < |data| - 2 && data[i].time <= t < data[i + 1].time
        ensures DrawnBetween(data, d, DrawnPoints(pieces), i, t)
      {
        PointBetween(data, d, pieces, i, t);
      }
    }
  }

  /** At a sample the curve has the sample's value. */
  lemma SampleMet(data: seq<Sample>, d: seq<real>, points: seq<(int, real)>, i: nat)
    requires Drawable(data) && |d| == |data| && i + 1 < |data|
    requires DrawnBetween(data, d, points, i, data[i].time)
    ensures points[data[i].time - data[0].time].1 == data[i].value
  {
    var h := (data[i + 1].time - data[i].time) as real;
    assert 0.0 / h == 0.0;
  }
}
