/**
  The cubic spline that the graphs window draws through a series of samples.

  The coefficients are found by an in-place sweep over a tridiagonal system (`ForwardSweep`,
  `BackwardSweep`), and one cubic segment is built per interval. Floating point is modelled by `real`.
 */
module CubicSpline {

  datatype Sample = Sample(time: int, value: real)

  datatype Segment = Segment(a: real, b: real, c: real, d: real, x: int) {
    /** The cubic as a function of the distance from its left end. */
    function At(dx: real): real {
      a + b * dx + c * (dx * dx) + d * (dx * dx * dx)
    }

    function SlopeAt(dx: real): real {
      b + 2.0 * c * dx + 3.0 * d * (dx * dx)
    }

    function CurvatureAt(dx: real): real {
      2.0 * c + 6.0 * d * dx
    }

    function Evaluate(time: int): real {
      At((time - x) as real)
    }
  }

  /** A segment together with the half-open time period over which it is drawn. */
  datatype Piece = Piece(first: int, second: int, segment: Segment)

  // ---------- The data and its linear system ----------

  /** At least one sample, with strictly increasing times. */
  ghost predicate Drawable(data: seq<Sample>) {
    |data| >= 1 && forall i, j :: 0 <= i < j < |data| ==> data[i].time < data[j].time
  }

  function Dx(data: seq<Sample>, i: nat): real
    requires i + 1 < |data|
  {
    (data[i + 1].time - data[i].time) as real
  }

  lemma DxPositive(data: seq<Sample>, i: nat)
    requires Drawable(data) && i + 1 < |data|
    ensures Dx(data, i) > 0.0
  {
    assert data[i].time < data[i + 1].time;
  }

  /** The slope of the chord from sample `i` to sample `i + 1`. */
  ghost function Chord(data: seq<Sample>, i: nat): real
    requires Drawable(data) && i + 1 < |data|
  {
    DxPositive(data, i);
    (data[i + 1].value - data[i].value) / Dx(data, i)
  }

  /** Row `i` of the system, in the form that needs no division. */
  ghost predicate RowHolds(data: seq<Sample>, d: seq<real>, i: nat)
    requires Drawable(data) && |d| == |data| && 1 <= i < |data| - 1
  {
    RowEquation(Dx(data, i - 1), Dx(data, i), d[i - 1], d[i], d[i + 1], 6.0 * (Chord(data, i) - Chord(data, i - 1)))
  }

  ghost predicate RowEquation(h0: real, h1: real, d0: real, d1: real, d2: real, rhs: real) {
    h1 * d0 + 2.0 * (h0 + h1) * d1 + h0 * d2 == rhs
  }

  /** `d` are second derivatives at the samples: zero at both ends, and every interior row holds. */
  ghost predicate Solves(data: seq<Sample>, d: seq<real>)
    requires Drawable(data)
  {
    && |d| == |data|
    && d[0] == 0.0 && d[|d| - 1] == 0.0
    && forall i :: 1 <= i < |data| - 1 ==> RowHolds(data, d, i)
  }

  // ---------- Tridiagonal systems ----------

  ghost predicate Dominant(q: seq<real>, s: seq<real>) {
    && |q| == |s| + 1
    && forall i :: 1 <= i < |s| ==> 0.0 < q[i] && 0.0 < s[i] && q[i] + s[i] == 1.0
  }

  /** Every interior row holds, with zero ends. */
  ghost predicate SolvesSystem(q: seq<real>, s: seq<real>, p: seq<real>, d: seq<real>)
    requires |q| == |p| == |s| + 1
  {
    && |d| == |q|
    && d[0] == 0.0 && d[|d| - 1] == 0.0
    && forall i :: 1 <= i < |s| ==> Row(q[i], s[i], p[i], d[i - 1], d[i], d[i + 1])
  }

  ghost predicate Row(q: real, s: real, p: real, d0: real, d1: real, d2: real) {
    q * d0 + 2.0 * d1 + s * d2 == p
  }

  /** What the forward sweep leaves in `d` (as `c`) and `p` (as `r`) for the rows below `upTo`. */
  ghost predicate Swept(q: seq<real>, s: seq<real>, p: seq<real>, c: seq<real>, r: seq<real>, upTo: nat)
    requires |q| == |p| == |c| == |r| == |s| + 1 && upTo <= |s|
  {
    && c[0] == 0.0 && r[0] == 0.0
    && forall i :: 1 <= i < upTo ==> SweptRow(q[i], s[i], p[i], c[i - 1], r[i - 1], c[i], r[i])
  }

  /** `pivot` stays in (1, 2], so no row divides by zero, and the swept coefficient stays in (-1, 0]. */
  ghost predicate SweptRow(q: real, s: real, p: real, c0: real, r0: real, c1: real, r1: real) {
    var pivot := Pivot(q, c0);
    && 1.0 < pivot <= 2.0
    && -1.0 < c1 <= 0.0
    && pivot * c1 == -s
    && pivot * r1 == Reduced(p, q, r0)
  }

  function Pivot(q: real, c0: real): real { q * c0 + 2.0 }

  function Reduced(p: real, q: real, r0: real): real { p - q * r0 }

  lemma QuotientBounds(a: real, b: real)
    requires 0.0 < a < b
    ensures 0.0 < a / b < 1.0
    ensures -a / b == -(a / b)
  {
    var r := a / b;
    assert r * b == a;
    assert (-r) * b == -a;
    assert r > 0.0 by { NonPositiveProduct(r, b); }
    assert 1.0 - r > 0.0 by {
      assert (1.0 - r) * b == b - a;
      NonPositiveProduct(1.0 - r, b);
    }
  }

  lemma NonPositiveProduct(r: real, b: real)
    requires b > 0.0
    ensures r <= 0.0 ==> r * b <= 0.0
  {}

  /** A fraction of a positive number is not negative and less than the number. */
  lemma PartOf(q: real, fraction: real, part: real)
    requires q > 0.0 && 0.0 <= fraction < 1.0 && part == q * fraction
    ensures 0.0 <= part < q
  {
    var rest := q * (1.0 - fraction);
    Positive(q, 1.0 - fraction, rest);
    assert rest == q - part;
    if fraction > 0.0 { Positive(q, fraction, part); }
  }

  lemma Positive(a: real, b: real, ab: real)
    requires a > 0.0 && b > 0.0 && ab == a * b
    ensures ab > 0.0
  {}

  lemma PivotBounds(q: real, s: real, c0: real, pivot: real)
    requires 0.0 < q && 0.0 < s && q + s == 1.0 && -1.0 < c0 <= 0.0 && pivot == Pivot(q, c0)
    ensures 1.0 < pivot <= 2.0
    ensures -1.0 < -s / pivot <= 0.0
  {
    PartOf(q, -c0, q * -c0);
    assert q * c0 == -(q * -c0);
    QuotientBounds(s, pivot);
  }

  /** One step of the forward sweep. */
  lemma EliminateRow(q: real, s: real, p: real, c0: real, r0: real, pivot: real, c1: real, r1: real)
    requires 0.0 < q && 0.0 < s && q + s == 1.0 && -1.0 < c0 <= 0.0
    requires pivot == Pivot(q, c0) && pivot != 0.0
    requires c1 == -s / pivot && r1 == Reduced(p, q, r0) / pivot
    ensures SweptRow(q, s, p, c0, r0, c1, r1)
  {
    hide Pivot, Reduced;
    PivotBounds(q, s, c0, pivot);
    assert pivot * (-s / pivot) == -s;
    assert pivot * (Reduced(p, q, r0) / pivot) == Reduced(p, q, r0);
  }

  lemma SweptRowSolves(q: real, s: real, p: real, c0: real, r0: real, c1: real, r1: real, d0: real, d1: real, d2: real)
    requires SweptRow(q, s, p, c0, r0, c1, r1)
    requires d0 == c0 * d1 + r0
    requires d1 == c1 * d2 + r1
    ensures Row(q, s, p, d0, d1, d2)
  {
    var pivot := q * c0 + 2.0;
    calc {
      q * d0 + 2.0 * d1 + s * d2;
      q * (c0 * d1 + r0) + 2.0 * d1 + s * d2;
      pivot * d1 + q * r0 + s * d2;
      pivot * (c1 * d2 + r1) + q * r0 + s * d2;
      { assert pivot * (c1 * d2 + r1) == (pivot * c1) * d2 + pivot * r1; }
      (pivot * c1) * d2 + pivot * r1 + q * r0 + s * d2;
      -s * d2 + (p - q * r0) + q * r0 + s * d2;
      p;
    }
  }

  /** What the backward sweep makes of the swept `c` and `r`. */
  ghost predicate BackSubstituted(c: seq<real>, r: seq<real>, d: seq<real>)
    requires |c| == |r| == |d| >= 1
  {
    && d[0] == c[0] && d[|d| - 1] == c[|d| - 1]
    && forall i :: 1 <= i < |d| - 1 ==> d[i] == BackStep(c[i], r[i], d[i + 1])
  }

  function BackStep(c: real, r: real, next: real): real { c * next + r }

  /** Back substitution turns the swept rows into a solution of the original rows. */
  lemma SweepSolves(q: seq<real>, s: seq<real>, p: seq<real>, c: seq<real>, r: seq<real>, d: seq<real>)
    requires |q| == |p| == |c| == |r| == |d| == |s| + 1
    requires Swept(q, s, p, c, r, |s|)
    requires c[|s|] == 0.0 && BackSubstituted(c, r, d)
    ensures SolvesSystem(q, s, p, d)
  {
    hide Row, SweptRow;
    forall i | 1 <= i < |s|
      ensures Row(q[i], s[i], p[i], d[i - 1], d[i], d[i + 1])
    {
      assert d[i - 1] == c[i - 1] * d[i] + r[i - 1];
      SweptRowSolves(q[i], s[i], p[i], c[i - 1], r[i - 1], c[i], r[i], d[i - 1], d[i], d[i + 1]);
    }
  }

  function Abs(x: real): real { if x < 0.0 then -x else x }

  lemma {:induction false} LargestEntry(d: seq<real>) returns (k: nat)
    requires d != []
    ensures k < |d| && forall i :: 0 <= i < |d| ==> Abs(d[i]) <= Abs(d[k])
  {
    if |d| == 1 {
      k := 0;
    } else {
      k := LargestEntry(d[..|d| - 1]);
      if Abs(d[k]) < Abs(d[|d| - 1]) {
        k := |d| - 1;
      }
    }
  }

  lemma ScaledBound(w: real, x: real, m: real, wx: real, wm: real)
    requires w > 0.0 && Abs(x) <= m && wx == w * x && wm == w * m
    ensures -wm <= wx <= wm
  {
    assert w * (m - x) >= 0.0;
    assert w * (m + x) >= 0.0;
  }

  lemma SumBound(u: real, v: real, a: real, b: real, d1: real, p: real)
    requires -a <= u <= a && -b <= v <= b && a + b == Abs(d1)
    requires u + 2.0 * d1 + v == p
    ensures Abs(d1) <= Abs(p)
  {}

  lemma Distribute(q: real, s: real, m: real)
    requires q + s == 1.0
    ensures q * m + s * m == m
  {
    assert (q + s) * m == q * m + s * m;
  }

  lemma RowBound(q: real, s: real, p: real, d0: real, d1: real, d2: real)
    requires 0.0 < q && 0.0 < s && q + s == 1.0
    requires Row(q, s, p, d0, d1, d2)
    requires Abs(d0) <= Abs(d1) && Abs(d2) <= Abs(d1)
    ensures Abs(d1) <= Abs(p)
  {
    var m := Abs(d1);
    var u, v, a, b := q * d0, s * d2, q * m, s * m;
    Distribute(q, s, m);
    ScaledBound(q, d0, m, u, a);
    ScaledBound(s, d2, m, v, b);
    SumBound(u, v, a, b, d1, p);
  }

  /** Maximum principle: no entry of a solution exceeds the largest right-hand side. */
  lemma SolutionBound(q: seq<real>, s: seq<real>, p: seq<real>, d: seq<real>, bound: real)
    requires Dominant(q, s) && |p| == |q| && SolvesSystem(q, s, p, d)
    requires bound >= 0.0 && forall j :: 1 <= j < |s| ==> Abs(p[j]) <= bound
    ensures forall i :: 0 <= i < |d| ==> Abs(d[i]) <= bound
  {
    hide Row;
    var k := LargestEntry(d);
    if 1 <= k < |s| {
      RowBound(q[k], s[k], p[k], d[k - 1], d[k], d[k + 1]);
    }
  }

  lemma RowDifference(q: real, s: real, p: real, d0: real, d1: real, d2: real, e0: real, e1: real, e2: real)
    requires Row(q, s, p, d0, d1, d2) && Row(q, s, p, e0, e1, e2)
    ensures Row(q, s, 0.0, d0 - e0, d1 - e1, d2 - e2)
  {
    assert q * (d0 - e0) == q * d0 - q * e0;
    assert s * (d2 - e2) == s * d2 - s * e2;
  }

  lemma SolutionUnique(q: seq<real>, s: seq<real>, p: seq<real>, d: seq<real>, e: seq<real>)
    requires Dominant(q, s) && |p| == |q|
    requires SolvesSystem(q, s, p, d) && SolvesSystem(q, s, p, e)
    ensures d == e
  {
    hide Row;
    var zero := seq(|p|, i => 0.0);
    var diff := seq(|d|, i requires 0 <= i < |d| => d[i] - e[i]);
    forall i | 1 <= i < |s|
      ensures Row(q[i], s[i], zero[i], diff[i - 1], diff[i], diff[i + 1])
    {
      RowDifference(q[i], s[i], p[i], d[i - 1], d[i], d[i + 1], e[i - 1], e[i], e[i + 1]);
    }
    SolutionBound(q, s, zero, diff, 0.0);
    forall i | 0 <= i < |d| ensures d[i] == e[i] {
      assert Abs(diff[i]) <= 0.0;
    }
  }

  // ---------- From the samples to the system and back ----------

  ghost function S(data: seq<Sample>, i: nat): real
    requires Drawable(data) && 1 <= i < |data| - 1
  {
    DxPositive(data, i - 1); DxPositive(data, i);
    Dx(data, i - 1) / (Dx(data, i - 1) + Dx(data, i))
  }

  ghost function P(data: seq<Sample>, i: nat): real
    requires Drawable(data) && 1 <= i < |data| - 1
  {
    DxPositive(data, i - 1); DxPositive(data, i);
    6.0 * (Chord(data, i) - Chord(data, i - 1)) / (Dx(data, i - 1) + Dx(data, i))
  }

  ghost predicate Coefficients(data: seq<Sample>, q: seq<real>, s: seq<real>, p: seq<real>)
    requires Drawable(data)
  {
    && |q| == |p| == |data| && |s| == |data| - 1
    && forall i :: 1 <= i < |s| ==> CoefficientsAt(data, i, q[i], s[i], p[i])
  }

  ghost predicate CoefficientsAt(data: seq<Sample>, i: nat, q: real, s: real, p: real)
    requires Drawable(data) && 1 <= i < |data| - 1
  {
    s == S(data, i) && q == 1.0 - s && p == P(data, i)
  }

  lemma WeightBounds(h0: real, h1: real)
    requires h0 > 0.0 && h1 > 0.0
    ensures 0.0 < h0 / (h0 + h1) < 1.0
    ensures (h0 / (h0 + h1)) * (h0 + h1) == h0
    ensures (1.0 - h0 / (h0 + h1)) * (h0 + h1) == h1
  {
    var s := h0 / (h0 + h1);
    QuotientBounds(h0, h0 + h1);
    assert (1.0 - s) * (h0 + h1) == (h0 + h1) - s * (h0 + h1);
  }

  lemma CoefficientsDominant(data: seq<Sample>, q: seq<real>, s: seq<real>, p: seq<real>)
    requires Drawable(data) && Coefficients(data, q, s, p)
    ensures Dominant(q, s)
  {
    forall i | 1 <= i < |s| ensures 0.0 < q[i] && 0.0 < s[i] && q[i] + s[i] == 1.0 {
      DxPositive(data, i - 1); DxPositive(data, i);
      WeightBounds(Dx(data, i - 1), Dx(data, i));
      hide P, Dx;
    }
  }

  lemma ScaledRow(q: real, s: real, p: real, h0: real, h1: real, rhs: real, d0: real, d1: real, d2: real)
    requires h0 > 0.0 && h1 > 0.0
    requires s * (h0 + h1) == h0 && q * (h0 + h1) == h1 && p * (h0 + h1) == rhs
    ensures Row(q, s, p, d0, d1, d2) <==> RowEquation(h0, h1, d0, d1, d2, rhs)
  {
    var sum := h0 + h1;
    var row := q * d0 + 2.0 * d1 + s * d2;
    assert row * sum == h1 * d0 + 2.0 * sum * d1 + h0 * d2 by {
      assert (q * d0) * sum == (q * sum) * d0;
      assert (s * d2) * sum == (s * sum) * d2;
      assert row * sum == (q * d0) * sum + 2.0 * d1 * sum + (s * d2) * sum;
    }
    if row * sum == rhs {
      assert (row - p) * sum == 0.0;
    }
  }

  lemma ScaledRhs(h0: real, h1: real, rhs: real)
    requires h0 > 0.0 && h1 > 0.0
    ensures rhs / (h0 + h1) * (h0 + h1) == rhs
  {}

  /** Dividing each row by `dx[i-1] + dx[i]`, as the program does, keeps the same solutions. */
  lemma SystemMatchesRows(data: seq<Sample>, q: seq<real>, s: seq<real>, p: seq<real>, d: seq<real>)
    requires Drawable(data) && Coefficients(data, q, s, p)
    ensures SolvesSystem(q, s, p, d) <==> Solves(data, d)
  {
    hide Row, RowEquation, Chord, Dx;
    if |d| == |data| {
      forall i | 1 <= i < |s|
        ensures Row(q[i], s[i], p[i], d[i - 1], d[i], d[i + 1]) <==> RowHolds(data, d, i)
      {
        var h0, h1 := Dx(data, i - 1), Dx(data, i);
        DxPositive(data, i - 1); DxPositive(data, i);
        WeightBounds(h0, h1);
        ScaledRhs(h0, h1, 6.0 * (Chord(data, i) - Chord(data, i - 1)));
        ScaledRow(q[i], s[i], p[i], h0, h1, 6.0 * (Chord(data, i) - Chord(data, i - 1)), d[i - 1], d[i], d[i + 1]);
      }
    }
  }

  ghost function CoefficientsOf(data: seq<Sample>): (r: (seq<real>, seq<real>, seq<real>))
    requires Drawable(data)
    ensures Coefficients(data, r.0, r.1, r.2) && Dominant(r.0, r.1)
  {
    var n := |data|;
    var s := seq(n - 1, i requires 0 <= i => if 1 <= i < n - 1 then S(data, i) else 0.0);
    var q := seq(n, i requires 0 <= i => if 1 <= i < n - 1 then 1.0 - S(data, i) else 0.0);
    var p := seq(n, i requires 0 <= i => if 1 <= i < n - 1 then P(data, i) else 0.0);
    CoefficientsDominant(data, q, s, p);
    (q, s, p)
  }

  /** The second derivatives are determined by the samples, so the drawn spline is too. */
  lemma SecondDerivativesUnique(data: seq<Sample>, d: seq<real>, e: seq<real>)
    requires Drawable(data) && Solves(data, d) && Solves(data, e)
    ensures d == e
  {
    hide CoefficientsAt, SolvesSystem, Solves;
    var (q, s, p) := CoefficientsOf(data);
    SystemMatchesRows(data, q, s, p, d);
    SystemMatchesRows(data, q, s, p, e);
    SolutionUnique(q, s, p, d, e);
  }

  lemma SecondDerivativesBounded(data: seq<Sample>, d: seq<real>, bound: real)
    requires Drawable(data) && Solves(data, d)
    requires bound >= 0.0 && forall j :: 1 <= j < |data| - 1 ==> Abs(P(data, j)) <= bound
    ensures forall i :: 0 <= i < |d| ==> Abs(d[i]) <= bound
  {
    hide SolvesSystem, Solves, P;
    var (q, s, p) := CoefficientsOf(data);
    SystemMatchesRows(data, q, s, p, d);
    SolutionBound(q, s, p, d, bound);
  }

  // ---------- The program ----------

  method FillCoefficients(data: seq<Sample>, dx: array<real>, dy: array<real>, s: array<real>, q: array<real>,
      p: array<real>)
    requires Drawable(data)
    requires dx.Length == s.Length == |data| - 1 && dy.Length == q.Length == p.Length == |data|
    requires forall i :: 0 <= i < |data| - 1 ==> dx[i] == Dx(data, i)
    requires forall i :: 0 <= i < |data| ==> dy[i] == data[i].value
    requires s != q && s != p && q != p && dx !in {s, q, p} && dy !in {s, q, p}
    modifies s, q, p
    ensures Coefficients(data, q[..], s[..], p[..])
    ensures p[0] == old(p[0])
  {
    var n := |data|;
    var i := 1;
    while i < n - 1
      invariant 1 <= i
      invariant forall k :: 1 <= k < i && k < n - 1 ==> CoefficientsAt(data, k, q[k], s[k], p[k])
      invariant p[0] == old(p[0])
    {
      DxPositive(data, i - 1); DxPositive(data, i);
      s[i] := dx[i - 1] / (dx[i - 1] + dx[i]);
      q[i] := 1.0 - s[i];
      p[i] := 6.0 * ((dy[i + 1] - dy[i]) / dx[i] - (dy[i] - dy[i - 1]) / dx[i - 1]) / (dx[i - 1] + dx[i]);
      assert CoefficientsAt(data, i, q[i], s[i], p[i]);
      i := i + 1;
    }
  }

  method ForwardSweep(s: array<real>, q: array<real>, p: array<real>, d: array<real>)
    requires q.Length == p.Length == d.Length == s.Length + 1
    requires Dominant(q[..], s[..])
    requires d[0] == 0.0 && p[0] == 0.0 && d[s.Length] == 0.0
    requires s != p && s != d && q != p && q != d && p != d
    modifies p, d
    ensures Swept(q[..], s[..], old(p[..]), d[..], p[..], s.Length)
    ensures d[s.Length] == 0.0
  {
    ghost var p0 := p[..];
    var i := 1;
    while i < s.Length
      invariant 1 <= i
      invariant d[0] == 0.0 && p[0] == 0.0 && d[s.Length] == 0.0
      invariant i <= s.Length ==> -1.0 < d[i - 1] <= 0.0
      invariant forall k :: 1 <= k < i && k < s.Length ==> SweptRow(q[k], s[k], p0[k], d[k - 1], p[k - 1], d[k], p[k])
      invariant forall k :: i <= k < p.Length ==> p[k] == p0[k]
    {
      assert q[..][i] == q[i] && s[..][i] == s[i];
      EliminateInPlace(s, q, p, d, i);
      i := i + 1;
    }
  }

  method EliminateInPlace(s: array<real>, q: array<real>, p: array<real>, d: array<real>, i: nat)
    requires q.Length == p.Length == d.Length == s.Length + 1 && 1 <= i < s.Length
    requires s != p && s != d && q != p && q != d && p != d
    requires 0.0 < q[i] && 0.0 < s[i] && q[i] + s[i] == 1.0 && -1.0 < d[i - 1] <= 0.0
    modifies p, d
    ensures forall k :: 0 <= k < p.Length && k != i ==> p[k] == old(p[k]) && d[k] == old(d[k])
    ensures SweptRow(q[i], s[i], old(p[i]), d[i - 1], p[i - 1], d[i], p[i])
  {
    var temp := q[i] * d[i - 1] + 2.0;
    assert temp == Pivot(q[i], d[i - 1]);
    assert p[i] - q[i] * p[i - 1] == Reduced(p[i], q[i], p[i - 1]);
    hide Pivot, Reduced, SweptRow;
    PivotBounds(q[i], s[i], d[i - 1], temp);
    ghost var p0 := p[i];
    d[i] := -s[i] / temp;
    p[i] := (p[i] - q[i] * p[i - 1]) / temp;
    EliminateRow(q[i], s[i], p0, d[i - 1], p[i - 1], temp, d[i], p[i]);
  }

  method BackwardSweep(p: array<real>, d: array<real>)
    requires p.Length == d.Length >= 1 && p != d
    modifies d
    ensures BackSubstituted(old(d[..]), p[..], d[..])
  {
    var n := d.Length;
    if n <= 2 { return; }
    for i := n - 1 downto 1
      invariant forall k :: 0 <= k < i ==> d[k] == old(d[k])
      invariant d[n - 1] == old(d[n - 1])
      invariant forall k :: i <= k < n - 1 ==> d[k] == BackStep(old(d[k]), p[k], d[k + 1])
    {
      assert d[i] * d[i + 1] + p[i] == BackStep(d[i], p[i], d[i + 1]);
      hide BackStep;
      d[i] := d[i] * d[i + 1] + p[i];
    }
  }

  method SecondDerivatives(data: seq<Sample>, dx: array<real>, dy: array<real>) returns (d: array<real>)
    requires Drawable(data)
    requires dx.Length == |data| - 1 && dy.Length == |data|
    requires forall i :: 0 <= i < |data| - 1 ==> dx[i] == Dx(data, i)
    requires forall i :: 0 <= i < |data| ==> dy[i] == data[i].value
    ensures fresh(d) && Solves(data, d[..])
  {
    hide CoefficientsAt, Row, RowHolds, SweptRow, BackSubstituted, SolvesSystem, Solves;
    var n := |data|;
    d := new real[n](_ => 0.0);
    var s := new real[n - 1](_ => 0.0);
    var q := new real[n](_ => 0.0);
    var p := new real[n](_ => 0.0);
    FillCoefficients(data, dx, dy, s, q, p);
    CoefficientsDominant(data, q[..], s[..], p[..]);
    ghost var p0 := p[..];
    ForwardSweep(s, q, p, d);
    ghost var c := d[..];
    BackwardSweep(p, d);
    SweepSolves(q[..], s[..], p0, c, p[..], d[..]);
    SystemMatchesRows(data, q[..], s[..], p0, d[..]);
  }

  function SegmentOf(data: seq<Sample>, d: seq<real>, i: nat): Segment
    requires |d| == |data| && i + 1 < |data| && data[i].time < data[i + 1].time
  {
    var h := Dx(data, i);
    Segment(data[i].value,
            (data[i + 1].value - data[i].value) / h - h * (2.0 * d[i] + d[i + 1]) / 6.0,
            d[i] / 2.0,
            (d[i + 1] - d[i]) / (6.0 * h),
            data[i].time)
  }

  /** Pairing neighbouring segments drops the last one: `n` samples give `n - 2` drawn pieces. */
  function Pieces(data: seq<Sample>, d: seq<real>): (pieces: seq<Piece>)
    requires |d| == |data|
    requires forall i :: 0 <= i < |data| - 1 ==> data[i].time < data[i + 1].time
  {
    seq(if |data| <= 2 then 0 else |data| - 2, i requires 0 <= i < |data| - 2 =>
      Piece(data[i].time, data[i + 1].time, SegmentOf(data, d, i)))
  }

  method BuildSegments(data: seq<Sample>, dx: array<real>, dy: array<real>, d: array<real>)
    returns (segments: seq<Segment>)
    requires Drawable(data)
    requires dx.Length == |data| - 1 && dy.Length == d.Length == |data|
    requires forall i :: 0 <= i < |data| - 1 ==> dx[i] == Dx(data, i)
    requires forall i :: 0 <= i < |data| ==> dy[i] == data[i].value
    ensures |segments| == |data| - 1
    ensures forall i :: 0 <= i < |segments| ==> segments[i] == SegmentOf(data, d[..], i)
  {
    segments := [];
    for i := 0 to |data| - 1
      invariant |segments| == i
      invariant forall k :: 0 <= k < i ==> segments[k] == SegmentOf(data, d[..], k)
    {
      DxPositive(data, i);
      var b := (dy[i + 1] - dy[i]) / dx[i] - dx[i] * (2.0 * d[i] + d[i + 1]) / 6.0;
      var segment := Segment(dy[i], b, d[i] / 2.0, (d[i + 1] - d[i]) / (6.0 * dx[i]), data[i].time);
      assert segment == SegmentOf(data, d[..], i);
      segments := segments + [segment];
    }
  }

  method PairSegments(data: seq<Sample>, segments: seq<Segment>) returns (pieces: seq<Piece>)
    requires |data| >= 1 && |segments| == |data| - 1
    ensures |pieces| == if |data| <= 2 then 0 else |data| - 2
    ensures forall i :: 0 <= i < |pieces| ==> pieces[i] == Piece(data[i].time, data[i + 1].time, segments[i])
  {
    pieces := [];
    while |pieces| + 1 < |segments|
      invariant |pieces| == 0 || |pieces| + 1 <= |segments|
      invariant forall i :: 0 <= i < |pieces| ==> pieces[i] == Piece(data[i].time, data[i + 1].time, segments[i])
    {
      var i := |pieces|;
      pieces := pieces + [Piece(data[i].time, data[i + 1].time, segments[i])];
    }
  }

  ghost predicate IsSplineOf(pieces: seq<Piece>, data: seq<Sample>)
    requires Drawable(data)
  {
    exists d: seq<real> :: Solves(data, d) && pieces == Pieces(data, d)
  }

  method CubicSplineInterpolation(data: seq<Sample>) returns (pieces: seq<Piece>)
    requires Drawable(data)
    ensures IsSplineOf(pieces, data)
  {
    var n := |data|;
    var dx := new real[n - 1];
    for i := 1 to n
      invariant forall k :: 0 <= k < i - 1 ==> dx[k] == Dx(data, k)
    {
      dx[i - 1] := (data[i].time - data[i - 1].time) as real;
    }
    var dy := new real[n](i requires 0 <= i < n => data[i].value);
    var d := SecondDerivatives(data, dx, dy);

    var segments := BuildSegments(data, dx, dy, d);
    pieces := PairSegments(data, segments);
    assert pieces == Pieces(data, d[..]);
  }
}
