/** The centered Lloyd-Max codebook of
    kvserve_v1/compression/quantizer/centered_codebook.py, over exact reals: the
    comparison tree of `_bucketize` and the scale-refinement loop of `_quantize`. */
module Codebook {
  import opened Numbers
  import opened Powers

  type Vector = seq<real>

  const FLOOR := 0.00000000000000000001

  // ----- The comparison tree -----

  function Above(x: real, b: real): nat { if x > b then 1 else 0 }

  function Bin2(x: real, bounds: Vector, base: nat): nat
    requires base < |bounds|
  {
    base + Above(x, bounds[base])
  }

  function Bin4(x: real, bounds: Vector, base: nat): nat
    requires base + 2 < |bounds|
  {
    if x > bounds[base + 1] then Bin2(x, bounds, base + 2) else Bin2(x, bounds, base)
  }

  function Bin8(x: real, bounds: Vector, base: nat): nat
    requires base + 6 < |bounds|
  {
    if x > bounds[base + 3] then Bin4(x, bounds, base + 4) else Bin4(x, bounds, base)
  }

  function Bucketize(x: real, bounds: Vector, bits: nat): nat
    requires 1 <= bits <= 4 && |bounds| == Pow2(bits) - 1
  {
    if bits == 1 then Bin2(x, bounds, 0)
    else if bits == 2 then Bin4(x, bounds, 0)
    else if bits == 3 then assert Pow2(3) == 8; Bin8(x, bounds, 0)
    else assert Pow2(4) == 16; if x > bounds[7] then Bin8(x, bounds, 8) else Bin8(x, bounds, 0)
  }

  ghost predicate Sorted(s: Vector) {
    forall i, j :: 0 <= i < j < |s| ==> s[i] <= s[j]
  }

  /** The number of bounds below x. */
  function CountBelow(x: real, bounds: Vector): nat {
    if bounds == [] then 0 else Above(x, bounds[0]) + CountBelow(x, bounds[1..])
  }

  /** k is the cut of sorted bounds at x. */
  ghost predicate Cut(x: real, bounds: Vector, k: nat) {
    && k <= |bounds|
    && (k > 0 ==> bounds[k - 1] < x)
    && (k < |bounds| ==> x <= bounds[k])
  }

  lemma {:induction false} CutIsCount(x: real, bounds: Vector, k: nat)
    requires Sorted(bounds) && Cut(x, bounds, k)
    ensures CountBelow(x, bounds) == k
  {
    if bounds != [] {
      var rest := bounds[1..];
      assert Sorted(rest);
      if k == 0 {
        assert rest != [] ==> bounds[0] <= rest[0];
        CutIsCount(x, rest, 0);
      } else {
        assert bounds[0] <= bounds[k - 1];
        CutIsCount(x, rest, k - 1);
      }
    }
  }

  lemma Bin2Cuts(x: real, bounds: Vector, base: nat)
    requires base < |bounds| && Sorted(bounds)
    requires base > 0 ==> bounds[base - 1] < x
    requires base + 1 < |bounds| ==> x <= bounds[base + 1]
    ensures Cut(x, bounds, Bin2(x, bounds, base))
  {
  }

  lemma Bin4Cuts(x: real, bounds: Vector, base: nat)
    requires base + 2 < |bounds| && Sorted(bounds)
    requires base > 0 ==> bounds[base - 1] < x
    requires base + 3 < |bounds| ==> x <= bounds[base + 3]
    ensures Cut(x, bounds, Bin4(x, bounds, base))
  {
    Bin2Cuts(x, bounds, if x > bounds[base + 1] then base + 2 else base);
  }

  lemma Bin8Cuts(x: real, bounds: Vector, base: nat)
    requires base + 6 < |bounds| && Sorted(bounds)
    requires base > 0 ==> bounds[base - 1] < x
    requires base + 7 < |bounds| ==> x <= bounds[base + 7]
    ensures Cut(x, bounds, Bin8(x, bounds, base))
  {
    Bin4Cuts(x, bounds, if x > bounds[base + 3] then base + 4 else base);
  }

  lemma BucketizeCuts(x: real, bounds: Vector, bits: nat)
    requires 1 <= bits <= 4 && |bounds| == Pow2(bits) - 1 && Sorted(bounds)
    ensures Cut(x, bounds, Bucketize(x, bounds, bits))
  {
    assert Pow2(1) == 2 && Pow2(2) == 4 && Pow2(3) == 8 && Pow2(4) == 16;
    match bits
    case 1 => Bin2Cuts(x, bounds, 0);
    case 2 => Bin4Cuts(x, bounds, 0);
    case 3 => Bin8Cuts(x, bounds, 0);
    case 4 => Bin8Cuts(x, bounds, if x > bounds[7] then 8 else 0);
  }

  /** The tree of comparisons counts the bounds below x. */
  lemma BucketizeCounts(x: real, bounds: Vector, bits: nat)
    requires 1 <= bits <= 4 && |bounds| == Pow2(bits) - 1 && Sorted(bounds)
    ensures Bucketize(x, bounds, bits) == CountBelow(x, bounds)
  {
    BucketizeCuts(x, bounds, bits);
    CutIsCount(x, bounds, Bucketize(x, bounds, bits));
  }

  // ----- Nearest centers -----

  function Midpoints(centers: Vector): (r: Vector)
    requires centers != []
    ensures |r| == |centers| - 1
  {
    seq(|centers| - 1, i requires 0 <= i < |centers| - 1 => (centers[i] + centers[i + 1]) / 2.0)
  }

  function Abs(v: real): (r: real)
    ensures r >= 0.0
  {
    if v < 0.0 then -v else v
  }

  lemma MidpointsSorted(centers: Vector)
    requires centers != [] && Sorted(centers)
    ensures Sorted(Midpoints(centers))
  {
  }

  lemma NearestLeft(x: real, centers: Vector, q: nat, j: nat)
    requires Sorted(centers) && j < q < |centers| && (centers[q - 1] + centers[q]) / 2.0 < x
    ensures Abs(x - centers[q]) <= Abs(x - centers[j])
  {
    assert centers[j] <= centers[q - 1] <= centers[q];
  }

  lemma NearestRight(x: real, centers: Vector, q: nat, j: nat)
    requires Sorted(centers) && q < j < |centers| && x <= (centers[q] + centers[q + 1]) / 2.0
    ensures Abs(x - centers[q]) <= Abs(x - centers[j])
  {
    assert centers[q] <= centers[q + 1] <= centers[j];
  }

  /** The chosen center is a nearest one. */
  lemma BucketizeIsNearest(x: real, centers: Vector, bits: nat, j: nat)
    requires 1 <= bits <= 4 && |centers| == Pow2(bits) && Sorted(centers) && j < |centers|
    ensures var q := Bucketize(x, Midpoints(centers), bits);
      q < |centers| && Abs(x - centers[q]) <= Abs(x - centers[j])
  {
    hide Sorted, Bucketize, Pow2, Abs;
    var bounds := Midpoints(centers);
    MidpointsSorted(centers);
    BucketizeCuts(x, bounds, bits);
    var q := Bucketize(x, bounds, bits);
    if j < q {
      NearestLeft(x, centers, q, j);
    } else if j > q {
      NearestRight(x, centers, q, j);
    }
  }

  // ----- Cost of a fit -----

  function Sqr(v: real): (r: real)
    ensures r >= 0.0
  {
    v * v
  }

  function Dot(x: Vector, y: Vector): real
    requires |x| == |y|
  {
    if x == [] then 0.0 else x[0] * y[0] + Dot(x[1..], y[1..])
  }

  function Miss(r: real, c: real, s: real): real { Sqr(r - s * c) }

  /** Sum of (r - s * c)^2. */
  function Cost(r: Vector, c: Vector, s: real): real
    requires |r| == |c|
  {
    if r == [] then 0.0 else Miss(r[0], c[0], s) + Cost(r[1..], c[1..], s)
  }

  lemma Square(a: real, b: real, s: real)
    ensures Miss(a, b, s) == a * a - 2.0 * s * (a * b) + s * s * (b * b)
  {
    var t := s * b;
    assert (a - t) * (a - t) == a * a - 2.0 * (a * t) + t * t;
    assert a * t == s * (a * b);
    assert t * t == s * s * (b * b) by { assert t * t == s * (b * (s * b)); }
  }

  function Parabola(r2: real, rc: real, c2: real, s: real): real { r2 - 2.0 * s * rc + s * s * c2 }

  lemma ParabolaAdd(a: real, b: real, c: real, a': real, b': real, c': real, s: real)
    ensures Parabola(a + a', b + b', c + c', s) == Parabola(a, b, c, s) + Parabola(a', b', c', s)
  {
    assert 2.0 * s * (b + b') == 2.0 * s * b + 2.0 * s * b';
    assert s * s * (c + c') == s * s * c + s * s * c';
  }

  lemma {:induction false} CostIsParabola(r: Vector, c: Vector, s: real)
    requires |r| == |c|
    ensures Cost(r, c, s) == Parabola(Dot(r, r), Dot(r, c), Dot(c, c), s)
  {
    if r != [] {
      CostIsParabola(r[1..], c[1..], s);
      Square(r[0], c[0], s);
      hide Parabola, Miss;
      ParabolaIs(r[0] * r[0], r[0] * c[0], c[0] * c[0], s);
      ParabolaAdd(r[0] * r[0], r[0] * c[0], c[0] * c[0], Dot(r[1..], r[1..]), Dot(r[1..], c[1..]), Dot(c[1..], c[1..]), s);
    } else {
      ParabolaIs(0.0, 0.0, 0.0, s);
    }
  }

  lemma ParabolaIs(a: real, b: real, c: real, s: real)
    ensures Parabola(a, b, c, s) == a - 2.0 * s * b + s * s * c
  {
  }

  /** The least-squares scale, clipped at zero. */
  function FitScale(r: Vector, c: Vector): real
    requires |r| == |c|
  {
    Max(Dot(r, c) / Max(Dot(c, c), FLOOR), 0.0)
  }

  /** Of all non-negative scales the fitted one costs least. */
  lemma FitIsBest(r: Vector, c: Vector, s: real)
    requires |r| == |c| && s >= 0.0 && Dot(c, c) >= FLOOR
    ensures Cost(r, c, FitScale(r, c)) <= Cost(r, c, s)
  {
    var b, a, best := Dot(r, c), Dot(c, c), FitScale(r, c);
    CostIsParabola(r, c, s);
    CostIsParabola(r, c, best);
    hide Dot, Cost;
    VertexIsLowest(Dot(r, r), b, a, s);
  }

  lemma VertexIsLowest(r2: real, b: real, a: real, s: real)
    requires a > 0.0 && s >= 0.0
    ensures Parabola(r2, b, a, Max(b / a, 0.0)) <= Parabola(r2, b, a, s)
  {
    var v := b / a;
    assert v * a == b;
    if b >= 0.0 {
      NonNegativeQuotient(b, a);
      Gap(r2, v, a, s);
      assert Sqr(s - v) * a >= 0.0;
    } else {
      NegativeQuotient(b, a);
      assert s * b <= 0.0 && s * s * a >= 0.0;
      assert Parabola(r2, b, a, 0.0) == r2;
      assert 2.0 * s * b == 2.0 * (s * b);
    }
  }

  lemma NonNegativeQuotient(b: real, a: real)
    requires a > 0.0 && b >= 0.0
    ensures b / a >= 0.0
  {
  }

  lemma NegativeQuotient(b: real, a: real)
    requires a > 0.0 && b < 0.0
    ensures b / a < 0.0
  {
  }

  /** Completing the square. */
  lemma Gap(r2: real, v: real, a: real, s: real)
    ensures Parabola(r2, v * a, a, s) - Parabola(r2, v * a, a, v) == Sqr(s - v) * a
  {
    assert Sqr(s - v) == s * s - 2.0 * (s * v) + v * v;
    assert 2.0 * s * (v * a) == 2.0 * (s * v) * a;
    assert 2.0 * v * (v * a) == 2.0 * (v * v) * a;
    assert (s * s - 2.0 * (s * v) + v * v) * a == s * s * a - 2.0 * (s * v) * a + v * v * a;
  }

  // ----- Reassignment -----

  function Assign(r: Vector, s: real, centers: Vector, bits: nat): (q: seq<nat>)
    requires 1 <= bits <= 4 && |centers| == Pow2(bits)
    ensures |q| == |r|
  {
    seq(|r|, i requires 0 <= i < |r| => Bucketize(r[i] / Max(s, FLOOR), Midpoints(centers), bits))
  }

  function Chosen(q: seq<nat>, centers: Vector): (c: Vector)
    requires forall i :: 0 <= i < |q| ==> q[i] < |centers|
    ensures |c| == |q|
  {
    seq(|q|, i requires 0 <= i < |q| => centers[q[i]])
  }

  ghost predicate Codewords(q: seq<nat>, centers: Vector) {
    forall i :: 0 <= i < |q| ==> q[i] < |centers|
  }

  lemma AssignInRange(r: Vector, s: real, centers: Vector, bits: nat)
    requires 1 <= bits <= 4 && |centers| == Pow2(bits) && Sorted(centers)
    ensures Codewords(Assign(r, s, centers, bits), centers)
  {
    hide Pow2, Bucketize;
    forall i | 0 <= i < |r| ensures Assign(r, s, centers, bits)[i] < |centers| {
      BucketizeIsNearest(r[i] / Max(s, FLOOR), centers, bits, 0);
    }
  }

  /** A scale the floor does not disturb. */
  predicate Regular(s: real) { s == 0.0 || s >= FLOOR }

  lemma CloserIsCheaper(r: real, s: real, c: real, d: real)
    requires s > 0.0 && Abs(r / s - c) <= Abs(r / s - d)
    ensures Miss(r, c, s) <= Miss(r, d, s)
  {
    var x := r / s;
    assert r == x * s;
    Scaled(x, s, c);
    Scaled(x, s, d);
    AbsSquare(x - c, x - d);
    Ordered(Sqr(x - c), Sqr(x - d), Sqr(s));
  }

  lemma Ordered(a: real, b: real, k: real)
    requires a <= b && k >= 0.0
    ensures k * a <= k * b
  {
  }

  lemma Scaled(x: real, s: real, c: real)
    ensures Sqr(x * s - s * c) == Sqr(s) * Sqr(x - c)
  {
    var d := x - c;
    assert x * s - s * c == s * d;
    assert (s * d) * (s * d) == (s * s) * (d * d);
  }

  lemma AbsSquare(u: real, v: real)
    requires Abs(u) <= Abs(v)
    ensures Sqr(u) <= Sqr(v)
  {
    AbsSqr(u);
    AbsSqr(v);
    hide Sqr, Abs;
    SqrMonotone(Abs(u), Abs(v));
  }

  lemma AbsSqr(u: real)
    ensures Sqr(Abs(u)) == Sqr(u)
  {
  }

  lemma SqrMonotone(a: real, b: real)
    requires 0.0 <= a <= b
    ensures Sqr(a) <= Sqr(b)
  {
    var d := b - a;
    assert d * (b + a) >= 0.0 by { ProductNonNegative(d, b + a); }
    assert (b - a) * (b + a) == b * b - a * a;
  }

  lemma {:induction false} CostMonotone(r: Vector, c: Vector, d: Vector, s: real)
    requires |r| == |c| == |d| && forall i :: 0 <= i < |r| ==> Miss(r[i], c[i], s) <= Miss(r[i], d[i], s)
    ensures Cost(r, c, s) <= Cost(r, d, s)
  {
    hide Miss;
    if r != [] {
      CostMonotone(r[1..], c[1..], d[1..], s);
    }
  }

  lemma NoScale(r: real, c: real)
    ensures Miss(r, c, 0.0) == Sqr(r)
  {
  }

  /** At a regular scale, reassigning every value to its bucket cannot cost more than any
      other assignment. */
  lemma ReassignIsBest(r: Vector, s: real, centers: Vector, bits: nat, q: seq<nat>)
    requires 1 <= bits <= 4 && |centers| == Pow2(bits) && Sorted(centers)
    requires Regular(s) && |q| == |r| && Codewords(q, centers)
    ensures Codewords(Assign(r, s, centers, bits), centers)
    ensures Cost(r, Chosen(Assign(r, s, centers, bits), centers), s) <= Cost(r, Chosen(q, centers), s)
  {
    hide Pow2, Bucketize, Cost, Miss;
    AssignInRange(r, s, centers, bits);
    var q' := Assign(r, s, centers, bits);
    var c, d := Chosen(q', centers), Chosen(q, centers);
    forall i | 0 <= i < |r| ensures Miss(r[i], c[i], s) <= Miss(r[i], d[i], s) {
      if s == 0.0 {
        NoScale(r[i], c[i]);
        NoScale(r[i], d[i]);
      } else {
        assert Max(s, FLOOR) == s;
        BucketizeIsNearest(r[i] / s, centers, bits, q[i]);
        CloserIsCheaper(r[i], s, c[i], d[i]);
      }
    }
    CostMonotone(r, c, d, s);
  }

  // ----- The loop -----

  /** The fit of a scale with its own assignment. */
  ghost function Fit(r: Vector, s: real, centers: Vector, bits: nat): real
    requires 1 <= bits <= 4 && |centers| == Pow2(bits) && Sorted(centers)
  {
    AssignInRange(r, s, centers, bits);
    Cost(r, Chosen(Assign(r, s, centers, bits), centers), s)
  }

  /** The scale after one refinement. */
  function Refined(r: Vector, s: real, centers: Vector, bits: nat): real
    requires 1 <= bits <= 4 && |centers| == Pow2(bits)
    requires forall i :: 0 <= i < |r| ==> Assign(r, s, centers, bits)[i] < |centers|
  {
    FitScale(r, Chosen(Assign(r, s, centers, bits), centers))
  }

  ghost predicate WellPosed(r: Vector, s: real, centers: Vector, bits: nat)
    requires 1 <= bits <= 4 && |centers| == Pow2(bits) && Sorted(centers)
  {
    AssignInRange(r, s, centers, bits);
    var c := Chosen(Assign(r, s, centers, bits), centers);
    s >= 0.0 && Dot(c, c) >= FLOOR && Regular(FitScale(r, c))
  }

  /** One refinement, least-squares scale then reassignment, never worsens the fit. */
  lemma RefinementImproves(r: Vector, s: real, centers: Vector, bits: nat)
    requires 1 <= bits <= 4 && |centers| == Pow2(bits) && Sorted(centers) && WellPosed(r, s, centers, bits)
    ensures Codewords(Assign(r, s, centers, bits), centers)
    ensures Fit(r, Refined(r, s, centers, bits), centers, bits) <= Fit(r, s, centers, bits)
  {
    hide Pow2, Cost, Dot, Assign;
    AssignInRange(r, s, centers, bits);
    var q := Assign(r, s, centers, bits);
    var c := Chosen(q, centers);
    FitIsBest(r, c, s);
    hide FitScale, Regular;
    ReassignIsBest(r, FitScale(r, c), centers, bits, q);
  }

  /** The scale after k refinements. */
  ghost function ScaleAt(r: Vector, s: real, centers: Vector, bits: nat, k: nat): real
    requires 1 <= bits <= 4 && |centers| == Pow2(bits) && Sorted(centers)
  {
    if k == 0 then s
    else
      var before := ScaleAt(r, s, centers, bits, k - 1);
      AssignInRange(r, before, centers, bits);
      Refined(r, before, centers, bits)
  }

  /** Refinement k + 1 gives the best non-negative scale for the symbols of the scale
      before it. */
  lemma ScaleAtBest(r: Vector, s: real, centers: Vector, bits: nat, k: nat, t: real)
    requires 1 <= bits <= 4 && |centers| == Pow2(bits) && Sorted(centers) && t >= 0.0
    requires WellPosed(r, ScaleAt(r, s, centers, bits, k), centers, bits)
    ensures var q := Assign(r, ScaleAt(r, s, centers, bits, k), centers, bits);
      && ScaleAt(r, s, centers, bits, k + 1) >= 0.0 && Codewords(q, centers)
      && Cost(r, Chosen(q, centers), ScaleAt(r, s, centers, bits, k + 1)) <= Cost(r, Chosen(q, centers), t)
  {
    hide Pow2, Cost, Dot, Assign;
    var before := ScaleAt(r, s, centers, bits, k);
    AssignInRange(r, before, centers, bits);
    FitIsBest(r, Chosen(Assign(r, before, centers, bits), centers), t);
  }

  /** The refinement loop and the final assignment of `_quantize`. */
  method Quantize(r: Vector, start: real, centers: Vector, bits: nat, steps: nat) returns (scale: real, q: seq<nat>)
    requires 1 <= bits <= 4 && |centers| == Pow2(bits) && Sorted(centers)
    requires forall k :: 0 <= k < steps ==> WellPosed(r, ScaleAt(r, start, centers, bits, k), centers, bits)
    ensures scale == ScaleAt(r, start, centers, bits, steps) && q == Assign(r, scale, centers, bits)
    ensures Codewords(q, centers) && Cost(r, Chosen(q, centers), scale) <= Fit(r, start, centers, bits)
  {
    hide Pow2, Cost, Assign, WellPosed, Refined, Fit, Sorted;
    scale := start;
    var k := 0;
    while k < steps
      invariant 0 <= k <= steps && scale == ScaleAt(r, start, centers, bits, k)
      invariant Fit(r, scale, centers, bits) <= Fit(r, start, centers, bits)
    {
      RefinementImproves(r, scale, centers, bits);
      scale := Refined(r, scale, centers, bits);
      k := k + 1;
    }
    AssignInRange(r, scale, centers, bits);
    q := Assign(r, scale, centers, bits);
    FitIs(r, scale, centers, bits);
  }

  lemma FitIs(r: Vector, s: real, centers: Vector, bits: nat)
    requires 1 <= bits <= 4 && |centers| == Pow2(bits) && Sorted(centers)
    ensures Codewords(Assign(r, s, centers, bits), centers)
    ensures Fit(r, s, centers, bits) == Cost(r, Chosen(Assign(r, s, centers, bits), centers), s)
  {
    hide *;
    AssignInRange(r, s, centers, bits);
    FitUnfolds(r, s, centers, bits);
  }

  lemma FitUnfolds(r: Vector, s: real, centers: Vector, bits: nat)
    requires 1 <= bits <= 4 && |centers| == Pow2(bits) && Sorted(centers) && Codewords(Assign(r, s, centers, bits), centers)
    ensures Fit(r, s, centers, bits) == Cost(r, Chosen(Assign(r, s, centers, bits), centers), s)
  {
  }
}
