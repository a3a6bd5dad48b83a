/** The min/max quantizers around the FWHT kernels of
    kvserve_v1/tilelang_ops/kv_hadamard_quant.py, over exact reals: the tiled channel
    reduction, the grouped token reduction, and the error of the restored vectors. */
module Quantization {
  import opened Numbers
  import opened Powers
  import opened Hadamard
  import opened Butterfly

  const TILE: nat := 32
  const SENTINEL := 10000000000.0
  const MIN_DIFF := 0.00001

  // ----- Minimum and maximum -----

  function MinFold(s: Vector, start: real): real {
    if s == [] then start else Min(MinFold(s[..|s| - 1], start), s[|s| - 1])
  }

  function MaxFold(s: Vector, start: real): real {
    if s == [] then start else Max(MaxFold(s[..|s| - 1], start), s[|s| - 1])
  }

  ghost predicate IsMin(s: Vector, v: real) {
    v in s && forall i :: 0 <= i < |s| ==> v <= s[i]
  }

  ghost predicate IsMax(s: Vector, v: real) {
    v in s && forall i :: 0 <= i < |s| ==> v >= s[i]
  }

  lemma {:induction false} MinFoldBounds(s: Vector, start: real)
    ensures MinFold(s, start) <= start && forall i :: 0 <= i < |s| ==> MinFold(s, start) <= s[i]
    ensures MinFold(s, start) == start || MinFold(s, start) in s
  {
    if s != [] { MinFoldBounds(s[..|s| - 1], start); }
  }

  lemma {:induction false} MaxFoldBounds(s: Vector, start: real)
    ensures MaxFold(s, start) >= start && forall i :: 0 <= i < |s| ==> MaxFold(s, start) >= s[i]
    ensures MaxFold(s, start) == start || MaxFold(s, start) in s
  {
    if s != [] { MaxFoldBounds(s[..|s| - 1], start); }
  }

  /** A fold from the sentinel is the true minimum exactly when some value is within it. */
  lemma SentinelMin(s: Vector)
    ensures IsMin(s, MinFold(s, SENTINEL)) <==> exists i :: 0 <= i < |s| && s[i] <= SENTINEL
  {
    MinFoldBounds(s, SENTINEL);
    if i :| 0 <= i < |s| && s[i] <= SENTINEL {
      if MinFold(s, SENTINEL) == SENTINEL { assert s[i] == SENTINEL; }
    }
  }

  lemma SentinelMax(s: Vector)
    ensures IsMax(s, MaxFold(s, -SENTINEL)) <==> exists i :: 0 <= i < |s| && s[i] >= -SENTINEL
  {
    MaxFoldBounds(s, -SENTINEL);
    if i :| 0 <= i < |s| && s[i] >= -SENTINEL {
      if MaxFold(s, -SENTINEL) == -SENTINEL { assert s[i] == -SENTINEL; }
    }
  }

  lemma {:induction false} FoldAppend(a: Vector, b: Vector, lo: real, hi: real)
    ensures MinFold(a + b, lo) == Min(MinFold(a, lo), MinFold(b, lo))
    ensures MaxFold(a + b, hi) == Max(MaxFold(a, hi), MaxFold(b, hi))
    decreases |b|
  {
    if b == [] {
      assert a + b == a;
      MinFoldBounds(a, lo);
      MaxFoldBounds(a, hi);
    } else {
      var n := |b| - 1;
      assert (a + b)[..|a + b| - 1] == a + b[..n];
      FoldAppend(a, b[..n], lo, hi);
    }
  }

  // ----- The channel axis: tiles of 32 rows -----

  function Column(rows: seq<Vector>, j: nat): Vector
    requires forall i :: 0 <= i < |rows| ==> j < |rows[i]|
  {
    seq(|rows|, i requires 0 <= i < |rows| => rows[i][j])
  }

  ghost predicate Shape(rows: seq<Vector>, dim: nat) {
    forall i :: 0 <= i < |rows| ==> |rows[i]| == dim
  }

  /** The Hadamard coefficients of every row. */
  ghost function Forwards(kv: seq<Vector>, signs: Vector, scale: real, m: nat): (r: seq<Vector>)
    requires Shape(kv, Pow2(m)) && |signs| == Pow2(m)
    ensures |r| == |kv| && Shape(r, Pow2(m))
  {
    seq(|kv|, i requires 0 <= i < |kv| => Forward(kv[i], signs, scale, m))
  }

  /** Per channel, the fold over the rows from the sentinels. */
  ghost predicate Folded(had: seq<Vector>, dim: nat, lo: Vector, hi: Vector) {
    && Shape(had, dim) && |lo| == |hi| == dim
    && forall j :: 0 <= j < dim ==>
         lo[j] == MinFold(Column(had, j), SENTINEL) && hi[j] == MaxFold(Column(had, j), -SENTINEL)
  }

  lemma FoldedAppend(a: seq<Vector>, b: seq<Vector>, dim: nat, alo: Vector, ahi: Vector, blo: Vector, bhi: Vector)
    requires Folded(a, dim, alo, ahi) && Folded(b, dim, blo, bhi)
    ensures Folded(a + b, dim,
                   seq(dim, j requires 0 <= j < dim => Min(alo[j], blo[j])),
                   seq(dim, j requires 0 <= j < dim => Max(ahi[j], bhi[j])))
  {
    hide MinFold, MaxFold, Min, Max;
    forall j | 0 <= j < dim
      ensures MinFold(Column(a + b, j), SENTINEL) == Min(alo[j], blo[j])
      ensures MaxFold(Column(a + b, j), -SENTINEL) == Max(ahi[j], bhi[j])
    {
      assert Column(a + b, j) == Column(a, j) + Column(b, j);
      FoldAppend(Column(a, j), Column(b, j), SENTINEL, -SENTINEL);
    }
  }

  lemma FoldedStep(had: seq<Vector>, row: Vector, lo: Vector, hi: Vector)
    requires Folded(had, |row|, lo, hi)
    ensures Folded(had + [row], |row|, seq(|row|, j requires 0 <= j < |row| => Min(lo[j], row[j])),
                   seq(|row|, j requires 0 <= j < |row| => Max(hi[j], row[j])))
  {
    hide Min, Max;
    forall j | 0 <= j < |row|
      ensures MinFold(Column(had + [row], j), SENTINEL) == Min(lo[j], row[j])
      ensures MaxFold(Column(had + [row], j), -SENTINEL) == Max(hi[j], row[j])
    {
      assert Column(had + [row], j)[..|had|] == Column(had, j);
    }
  }

  /** Scale one row of the tile and fold it into the channel extremes. */
  method ScaleAndReduce(data: array2<real>, i: nat, scale: real, lo: array<real>, hi: array<real>, inRange: bool)
    requires i < data.Length0 && lo.Length == hi.Length == data.Length1 && lo != hi
    modifies data, lo, hi
    ensures RowOf(data, i) == Scale(scale, old(RowOf(data, i)))
    ensures forall r :: 0 <= r < data.Length0 && r != i ==> RowOf(data, r) == old(RowOf(data, r))
    ensures forall j :: 0 <= j < lo.Length ==> lo[j] == if inRange then Min(old(lo[j]), data[i, j]) else old(lo[j])
    ensures forall j :: 0 <= j < hi.Length ==> hi[j] == if inRange then Max(old(hi[j]), data[i, j]) else old(hi[j])
  {
    hide Mul, Min, Max;
    var j := 0;
    while j < data.Length1
      invariant 0 <= j <= data.Length1
      invariant forall c :: 0 <= c < j ==> data[i, c] == Mul(scale, old(data[i, c]))
      invariant forall r, c :: 0 <= r < data.Length0 && 0 <= c < data.Length1 && (r != i || c >= j) ==> data[r, c] == old(data[r, c])
      invariant forall c :: 0 <= c < j ==> lo[c] == if inRange then Min(old(lo[c]), data[i, c]) else old(lo[c])
      invariant forall c :: 0 <= c < j ==> hi[c] == if inRange then Max(old(hi[c]), data[i, c]) else old(hi[c])
      invariant forall c :: j <= c < lo.Length ==> lo[c] == old(lo[c]) && hi[c] == old(hi[c])
    {
      data[i, j] := Mul(scale, data[i, j]);
      if inRange {
        lo[j] := Min(lo[j], data[i, j]);
        hi[j] := Max(hi[j], data[i, j]);
      }
      j := j + 1;
    }
  }

  /** The load stage: a row of the tile times the signs, zeros past the last row. */
  ghost function Loaded(kv: seq<Vector>, r: nat, signs: Vector, dim: nat): (row: Vector)
    requires Shape(kv, dim) && |signs| == dim
    ensures |row| == dim
  {
    if r < |kv| then Times(kv[r], signs) else seq(dim, _ => 0.0)
  }

  method LoadTile(kv: seq<Vector>, bx: nat, signs: Vector, dim: nat) returns (data: array2<real>)
    requires Shape(kv, dim) && |signs| == dim
    ensures fresh(data) && data.Length0 == TILE && data.Length1 == dim
    ensures forall i :: 0 <= i < TILE ==> RowOf(data, i) == Loaded(kv, bx * TILE + i, signs, dim)
  {
    hide Mul;
    data := new real[TILE, dim] ((i: nat, j: nat) requires j < dim =>
      if bx * TILE + i < |kv| && j < |kv[bx * TILE + i]| && j < |signs| then Mul(kv[bx * TILE + i][j], signs[j]) else 0.0);
  }

  /** One thread block of `fwht_channel_reduce`: Hadamard rows and tile extremes. */
  method ForwardTile(kv: seq<Vector>, bx: nat, signs: Vector, scale: real, m: nat, orders: seq<seq<(nat, nat)>>)
    returns (had: seq<Vector>, tileMin: Vector, tileMax: Vector)
    requires Shape(kv, Pow2(m)) && |signs| == Pow2(m) && bx * TILE < |kv|
    requires |orders| == m && forall s :: 0 <= s < m ==> Schedule(orders[s], TILE, Pow2(m) / 2)
    ensures had == Forwards(kv, signs, scale, m)[bx * TILE..Least(|kv|, bx * TILE + TILE)]
    ensures Folded(had, Pow2(m), tileMin, tileMax)
  {
    hide Schedule, Transform, Pow2, Folded, Mul, Min, Max;
    var dim := Pow2(m);
    ghost var all := Forwards(kv, signs, scale, m);
    var data := LoadTile(kv, bx, signs, dim);
    Fwht(data, m, orders);
    var lo := new real[dim](_ => SENTINEL);
    var hi := new real[dim](_ => -SENTINEL);
    had := [];
    NothingFolded(dim, lo[..], hi[..]);
    var i := 0;
    while i < TILE
      invariant 0 <= i <= TILE && fresh(data) && fresh(lo) && fresh(hi)
      invariant had == all[bx * TILE..Least(|kv|, bx * TILE + i)]
      invariant Folded(had, dim, lo[..], hi[..])
      invariant forall r :: i <= r < TILE ==> RowOf(data, r) == Transform(Loaded(kv, bx * TILE + r, signs, dim), m)
    {
      var r := bx * TILE + i;
      ghost var lo0, hi0 := lo[..], hi[..];
      ScaleAndReduce(data, i, scale, lo, hi, r < |kv|);
      if r < |kv| {
        var row := seq(dim, j requires 0 <= j < dim reads data => data[i, j]);
        assert row == RowOf(data, i) == all[r];
        FoldedStep(had, row, lo0, hi0);
        had := had + [row];
        assert lo[..] == seq(dim, j requires 0 <= j < dim => Min(lo0[j], row[j]));
        assert hi[..] == seq(dim, j requires 0 <= j < dim => Max(hi0[j], row[j]));
      } else {
        assert lo[..] == lo0 && hi[..] == hi0;
      }
      i := i + 1;
    }
    tileMin, tileMax := lo[..], hi[..];
  }

  lemma NothingFolded(dim: nat, lo: Vector, hi: Vector)
    requires |lo| == |hi| == dim && forall j :: 0 <= j < dim ==> lo[j] == SENTINEL && hi[j] == -SENTINEL
    ensures Folded([], dim, lo, hi)
  {
  }

  /** Kernel A over all tiles followed by `amin` and `amax` over the tiles. */
  method ChannelReduce(kv: seq<Vector>, signs: Vector, scale: real, m: nat, orders: seq<seq<(nat, nat)>>)
    returns (had: seq<Vector>, lo: Vector, hi: Vector)
    requires kv != [] && Shape(kv, Pow2(m)) && |signs| == Pow2(m)
    requires |orders| == m && forall s :: 0 <= s < m ==> Schedule(orders[s], TILE, Pow2(m) / 2)
    ensures had == Forwards(kv, signs, scale, m) && Folded(had, Pow2(m), lo, hi)
  {
    hide Schedule, Transform, Pow2, Folded, Min, Max;
    var dim := Pow2(m);
    ghost var all := Forwards(kv, signs, scale, m);
    had, lo, hi := ForwardTile(kv, 0, signs, scale, m, orders);
    FoldedLength(had, dim, lo, hi);
    var bx := 1;
    while bx * TILE < |kv|
      invariant 1 <= bx && had == all[..Least(|kv|, bx * TILE)]
      invariant |lo| == |hi| == dim && Folded(had, dim, lo, hi)
      decreases |kv| - bx * TILE
    {
      var rows, tileMin, tileMax := ForwardTile(kv, bx, signs, scale, m, orders);
      FoldedLength(rows, dim, tileMin, tileMax);
      FoldedAppend(had, rows, dim, lo, hi, tileMin, tileMax);
      had := had + rows;
      lo := seq(dim, j requires 0 <= j < dim => Min(lo[j], tileMin[j]));
      hi := seq(dim, j requires 0 <= j < dim => Max(hi[j], tileMax[j]));
      bx := bx + 1;
    }
    assert all[..|kv|] == all;
  }

  lemma FoldedLength(had: seq<Vector>, dim: nat, lo: Vector, hi: Vector)
    requires Folded(had, dim, lo, hi)
    ensures |lo| == |hi| == dim
  {
  }

  /** Within the sentinel, tile-then-global reduction finds the true extremes of a channel. */
  lemma ChannelExtremes(had: seq<Vector>, dim: nat, lo: Vector, hi: Vector, j: nat)
    requires Folded(had, dim, lo, hi) && j < dim
    ensures IsMin(Column(had, j), lo[j]) <==> exists i :: 0 <= i < |had| && had[i][j] <= SENTINEL
    ensures IsMax(Column(had, j), hi[j]) <==> exists i :: 0 <= i < |had| && had[i][j] >= -SENTINEL
  {
    hide MinFold, MaxFold, IsMin, IsMax;
    var c := Column(had, j);
    SentinelMin(c);
    SentinelMax(c);
    assert forall i :: 0 <= i < |had| ==> c[i] == had[i][j];
  }

  // ----- The quantizer -----

  type Rounding = real -> int

  /** Rounding to a nearest integer, ties either way. */
  ghost predicate Nearest(round: Rounding) {
    forall v :: -0.5 <= round(v) as real - v <= 0.5
  }

  /** The quantization step for symbols below `levels`. */
  function StepSize(lo: real, hi: real, levels: nat): (step: real)
    requires levels >= 2
    ensures step > 0.0
  {
    Max(hi - lo, MIN_DIFF) / (levels - 1) as real
  }

  function Clamp(k: int, levels: nat): int {
    var nonNegative := if k < 0 then 0 else k;
    if nonNegative > levels then levels else nonNegative
  }

  function Symbol(v: real, lo: real, step: real, levels: nat, round: Rounding): int
    requires step > 0.0
  {
    Clamp(round((v - lo) / step), levels)
  }

  function Dequantize(k: int, lo: real, step: real): real { Mul(k as real, step) + lo }

  lemma SignOfProduct(x: real, step: real)
    requires step > 0.0
    ensures x < 0.0 ==> x * step < 0.0
    ensures x > 0.0 ==> x * step > 0.0
  {
  }

  lemma Quotient(d: real, step: real, top: nat)
    requires step > 0.0 && 0.0 <= d <= step * top as real
    ensures d / step * step == d && 0.0 <= d / step <= top as real
  {
    var x := d / step;
    SignOfProduct(x, step);
    SignOfProduct(x - top as real, step);
    assert (x - top as real) * step == x * step - step * top as real;
  }

  lemma Product(e: real, step: real)
    requires -0.5 <= e <= 0.5 && step > 0.0
    ensures -step / 2.0 <= e * step <= step / 2.0
  {
    ProductNonNegative(e + 0.5, step);
    ProductNonNegative(0.5 - e, step);
    assert (e + 0.5) * step == e * step + step / 2.0 && (0.5 - e) * step == step / 2.0 - e * step;
  }

  lemma NearestBetween(k: int, x: real, top: int)
    requires -0.5 <= k as real - x <= 0.5 && 0.0 <= x <= top as real
    ensures 0 <= k <= top
  {
  }

  lemma ErrorOf(k: int, x: real, v: real, lo: real, step: real)
    requires x * step == v - lo && step > 0.0 && -0.5 <= k as real - x <= 0.5
    ensures -step / 2.0 <= Dequantize(k, lo, step) - v <= step / 2.0
  {
    Product(k as real - x, step);
    assert (k as real - x) * step == k as real * step - x * step;
  }

  /** k is a level nearest to v when `levels` levels divide the range from lo to hi evenly,
      a range of at least 1e-5. */
  ghost predicate NearestLevel(k: int, v: real, lo: real, hi: real, levels: nat) {
    var range, top := Max(hi - lo, MIN_DIFF), levels - 1;
    0 <= k <= top && -range / 2.0 <= Mul(k as real, range) - Mul(v - lo, top as real) <= range / 2.0
  }

  /** The ends of the range are the end levels. */
  lemma EndLevels(k: int, v: real, lo: real, hi: real, levels: nat)
    requires NearestLevel(k, v, lo, hi, levels)
    ensures v == lo ==> k == 0
    ensures v == hi && hi - lo >= MIN_DIFF ==> k == levels - 1
  {
    var range, top := Max(hi - lo, MIN_DIFF), levels - 1;
    if v == lo {
      assert Mul(v - lo, top as real) == 0.0;
      if k >= 1 { ProductNonNegative((k - 1) as real, range); }
    }
    if v == hi && hi - lo >= MIN_DIFF && k < top {
      var short := (top - k) as real;
      assert Mul(v - lo, top as real) - Mul(k as real, range) == short * range;
      ProductNonNegative(short - 1.0, range);
    }
  }

  /** The emitted step times levels - 1 is the range. */
  lemma StepSpansRange(lo: real, hi: real, levels: nat)
    requires levels >= 2
    ensures StepSize(lo, hi, levels) * (levels - 1) as real == Max(hi - lo, MIN_DIFF)
  {
  }

  lemma LevelOf(k: int, x: real, v: real, lo: real, step: real, range: real, top: nat)
    requires x * step == v - lo && step > 0.0 && top > 0 && step * top as real == range && -0.5 <= k as real - x <= 0.5
    ensures -range / 2.0 <= Mul(k as real, range) - Mul(v - lo, top as real) <= range / 2.0
  {
    ProductNonNegative(step, top as real);
    assert (v - lo) * top as real == x * step * top as real == x * range;
    assert Mul(k as real, range) - Mul(v - lo, top as real) == (k as real - x) * range;
    ProductNonNegative(k as real - x + 0.5, range);
    ProductNonNegative(0.5 - (k as real - x), range);
  }

  /** Inside the group's range no clamping happens, the symbol is the nearest of `levels`
      evenly spaced levels, and the value dequantized from it is within half their distance. */
  lemma HalfStep(v: real, lo: real, hi: real, levels: nat, round: Rounding)
    requires Nearest(round) && levels >= 2 && lo <= v <= hi
    ensures var step := StepSize(lo, hi, levels); var k := Symbol(v, lo, step, levels, round);
      var half := Max(hi - lo, MIN_DIFF) / (2.0 * (levels - 1) as real);
      NearestLevel(k, v, lo, hi, levels) && -half <= Dequantize(k, lo, step) - v <= half
  {
    hide Dequantize, Mul;
    var step := StepSize(lo, hi, levels);
    StepSpansRange(lo, hi, levels);
    HalfOf(lo, hi, levels);
    hide StepSize;
    Quotient(v - lo, step, levels - 1);
    var x := (v - lo) / step;
    var k := round(x);
    NearestBetween(k, x, levels - 1);
    ErrorOf(k, x, v, lo, step);
    LevelOf(k, x, v, lo, step, Max(hi - lo, MIN_DIFF), levels - 1);
  }

  lemma HalfOf(lo: real, hi: real, levels: nat)
    requires levels >= 2
    ensures Max(hi - lo, MIN_DIFF) / (2.0 * (levels - 1) as real) == StepSize(lo, hi, levels) / 2.0
  {
  }

  /** Values outside the range, as rounded coefficients can be, get an end of 0 .. levels. */
  lemma Clamped(v: real, lo: real, step: real, levels: nat, round: Rounding)
    requires step > 0.0
    ensures var k, n := Symbol(v, lo, step, levels, round), round((v - lo) / step);
      0 <= k <= levels && (n < 0 ==> k == 0) && (n > levels ==> k == levels) && (0 <= n <= levels ==> k == n)
  {
  }

  // ----- Error of the restored vectors -----

  lemma {:induction false} NormMonotone(x: Vector, bound: Vector)
    requires |x| == |bound| && forall i :: 0 <= i < |x| ==> -bound[i] <= x[i] <= bound[i]
    ensures Norm2(x) <= Norm2(bound)
  {
    if x != [] {
      SquareMonotone(x[0], bound[0]);
      hide Mul;
      NormMonotone(x[1..], bound[1..]);
    }
  }

  lemma SquareMonotone(x: real, b: real)
    requires -b <= x <= b
    ensures Mul(x, x) <= Mul(b, b)
  {
    ProductNonNegative(b - x, b + x);
    assert (b - x) * (b + x) == b * b - x * x;
  }

  /** One row through quantizer and inverse kernel, with a range and a level count per entry. */
  ghost function Dequantized(had: Vector, lo: Vector, hi: Vector, levels: nat, round: Rounding): (r: Vector)
    requires |had| == |lo| == |hi| && levels >= 2
    ensures |r| == |had|
  {
    seq(|had|, j requires 0 <= j < |had| =>
      var step := StepSize(lo[j], hi[j], levels); Dequantize(Symbol(had[j], lo[j], step, levels, round), lo[j], step))
  }

  /** Half the distance of the levels of each range. */
  function HalfSteps(lo: Vector, hi: Vector, levels: nat): Vector
    requires |lo| == |hi| && levels >= 2
  {
    seq(|lo|, j requires 0 <= j < |lo| => Max(hi[j] - lo[j], MIN_DIFF) / (2.0 * (levels - 1) as real))
  }

  /** The squared error of a restored row is at most the sum over its entries of
      (max(hi - lo, 1e-5) / (2 (levels - 1)))^2. */
  lemma RowErrorBound(x: Vector, signs: Vector, scale: real, m: nat, lo: Vector, hi: Vector, levels: nat, round: Rounding)
    requires |x| == |signs| == |lo| == |hi| == Pow2(m) && Signs(signs) && scale * scale * Pow2(m) as real == 1.0
    requires Nearest(round) && levels >= 2
    requires var had := Forward(x, signs, scale, m); forall j :: 0 <= j < |had| ==> lo[j] <= had[j] <= hi[j]
    ensures var y := Dequantized(Forward(x, signs, scale, m), lo, hi, levels, round);
      Norm2(Sub(Backward(y, signs, scale, m), x)) <= Norm2(HalfSteps(lo, hi, levels))
  {
    hide Forward, Backward, Norm2, Pow2, StepSize, Dequantize, Symbol, Nearest, Signs;
    var had := Forward(x, signs, scale, m);
    var y := Dequantized(had, lo, hi, levels, round);
    ErrorIsPreserved(x, y, signs, scale, m);
    var bound := HalfSteps(lo, hi, levels);
    forall j | 0 <= j < |had| ensures -bound[j] <= Sub(y, had)[j] <= bound[j] {
      HalfStep(had[j], lo[j], hi[j], levels, round);
    }
    NormMonotone(Sub(y, had), bound);
  }
}
