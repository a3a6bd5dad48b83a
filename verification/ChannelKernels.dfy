/** `_channel_compress_fwht` and its inverse for one head
    (kvserve_v1/tilelang_ops/kv_hadamard_quant.py): the quantize and dequantize
    kernels around the reductions, and the error of a whole round trip. */
module ChannelKernels {
  import opened Numbers
  import opened Powers
  import opened Hadamard
  import opened Butterfly
  import opened Quantization

  ghost predicate SymbolRow(q: seq<int>, had: Vector, lo: Vector, step: Vector, levels: nat, round: Rounding) {
    && |q| == |had| == |lo| == |step|
    && forall j :: 0 <= j < |q| ==> step[j] > 0.0 && q[j] == Symbol(had[j], lo[j], step[j], levels, round)
  }

  ghost predicate StepsOf(step: Vector, lo: Vector, hi: Vector, levels: nat) {
    && levels >= 2 && |step| == |lo| == |hi|
    && forall j :: 0 <= j < |lo| ==> step[j] == StepSize(lo[j], hi[j], levels)
  }

  /** What the compressor hands on for one head. */
  ghost predicate Compressed(kv: seq<Vector>, signs: Vector, scale: real, m: nat, levels: nat, round: Rounding,
                             q: seq<seq<int>>, lo: Vector, step: Vector)
    requires Shape(kv, Pow2(m)) && |signs| == Pow2(m)
  {
    var had := Forwards(kv, signs, scale, m);
    exists hi :: && Folded(had, Pow2(m), lo, hi) && StepsOf(step, lo, hi, levels) && |q| == |kv|
                 && forall i :: 0 <= i < |q| ==> SymbolRow(q[i], had[i], lo, step, levels, round)
  }

  method QuantizeRow(had: Vector, lo: Vector, step: Vector, levels: nat, round: Rounding) returns (q: seq<int>)
    requires |had| == |lo| == |step| && forall j :: 0 <= j < |step| ==> step[j] > 0.0
    ensures SymbolRow(q, had, lo, step, levels, round)
  {
    hide Symbol;
    q := [];
    var j := 0;
    while j < |had|
      invariant 0 <= j <= |had| && |q| == j
      invariant forall c :: 0 <= c < j ==> q[c] == Symbol(had[c], lo[c], step[c], levels, round)
    {
      q := q + [Symbol(had[j], lo[j], step[j], levels, round)];
      j := j + 1;
    }
  }

  /** Kernels A and B with the reduction between them. */
  method CompressChannel(kv: seq<Vector>, signs: Vector, scale: real, m: nat, levels: nat, round: Rounding,
                         orders: seq<seq<(nat, nat)>>)
    returns (q: seq<seq<int>>, lo: Vector, step: Vector)
    requires kv != [] && Shape(kv, Pow2(m)) && |signs| == Pow2(m) && levels >= 2
    requires |orders| == m && forall s :: 0 <= s < m ==> Schedule(orders[s], TILE, Pow2(m) / 2)
    ensures Compressed(kv, signs, scale, m, levels, round, q, lo, step)
  {
    hide Schedule, Pow2, Folded, SymbolRow, StepSize;
    var had, lo', hi := ChannelReduce(kv, signs, scale, m, orders);
    lo := lo';
    FoldedLength(had, Pow2(m), lo, hi);
    step := seq(|lo|, j requires 0 <= j < |lo| => StepSize(lo[j], hi[j], levels));
    q := [];
    var i := 0;
    while i < |had|
      invariant 0 <= i <= |had| && |q| == i
      invariant forall r :: 0 <= r < i ==> SymbolRow(q[r], had[r], lo, step, levels, round)
    {
      var row := QuantizeRow(had[i], lo, step, levels, round);
      q := q + [row];
      i := i + 1;
    }
  }

  // ----- The inverse -----

  ghost function DequantRow(q: seq<int>, lo: Vector, step: Vector): (r: Vector)
    requires |q| == |lo| == |step|
    ensures |r| == |q|
  {
    seq(|q|, j requires 0 <= j < |q| => Dequantize(q[j], lo[j], step[j]))
  }

  ghost predicate SymbolShape(q: seq<seq<int>>, dim: nat) {
    forall i :: 0 <= i < |q| ==> |q[i]| == dim
  }

  ghost function Restored(q: seq<seq<int>>, lo: Vector, step: Vector, signs: Vector, scale: real, m: nat): (r: seq<Vector>)
    requires SymbolShape(q, Pow2(m)) && |lo| == |step| == |signs| == Pow2(m)
    ensures |r| == |q|
  {
    seq(|q|, i requires 0 <= i < |q| => Backward(DequantRow(q[i], lo, step), signs, scale, m))
  }

  method LoadSymbols(q: seq<seq<int>>, bx: nat, lo: Vector, step: Vector, dim: nat) returns (data: array2<real>)
    requires SymbolShape(q, dim) && |lo| == |step| == dim
    ensures fresh(data) && data.Length0 == TILE && data.Length1 == dim
    ensures forall i :: 0 <= i < TILE && bx * TILE + i < |q| ==> RowOf(data, i) == DequantRow(q[bx * TILE + i], lo, step)
  {
    hide Dequantize;
    data := new real[TILE, dim] ((i: nat, j: nat) requires j < dim =>
      if bx * TILE + i < |q| && j < |q[bx * TILE + i]| && j < |lo| && j < |step|
      then Dequantize(q[bx * TILE + i][j], lo[j], step[j]) else 0.0);
  }

  /** One thread block of `fwht_dequant_channel`. */
  method RestoreTile(q: seq<seq<int>>, bx: nat, lo: Vector, step: Vector, signs: Vector, scale: real, m: nat,
                     orders: seq<seq<(nat, nat)>>)
    returns (out: seq<Vector>)
    requires SymbolShape(q, Pow2(m)) && |lo| == |step| == |signs| == Pow2(m) && bx * TILE < |q|
    requires |orders| == m && forall s :: 0 <= s < m ==> Schedule(orders[s], TILE, Pow2(m) / 2)
    ensures out == Restored(q, lo, step, signs, scale, m)[bx * TILE..Least(|q|, bx * TILE + TILE)]
  {
    hide Schedule, Transform, Pow2, Mul, Dequantize;
    var dim := Pow2(m);
    ghost var all := Restored(q, lo, step, signs, scale, m);
    var data := LoadSymbols(q, bx, lo, step, dim);
    Fwht(data, m, orders);
    out := [];
    var i := 0;
    while i < TILE && bx * TILE + i < |q|
      invariant 0 <= i <= TILE && bx * TILE + i <= |q|
      invariant out == all[bx * TILE..bx * TILE + i]
    {
      var row := seq(dim, j requires 0 <= j < dim reads data => Mul(Mul(scale, data[i, j]), signs[j]));
      assert row == Times(Scale(scale, RowOf(data, i)), signs) == all[bx * TILE + i];
      out := out + [row];
      i := i + 1;
    }
  }

  method RestoreChannel(q: seq<seq<int>>, lo: Vector, step: Vector, signs: Vector, scale: real, m: nat,
                        orders: seq<seq<(nat, nat)>>)
    returns (out: seq<Vector>)
    requires SymbolShape(q, Pow2(m)) && |lo| == |step| == |signs| == Pow2(m)
    requires |orders| == m && forall s :: 0 <= s < m ==> Schedule(orders[s], TILE, Pow2(m) / 2)
    ensures out == Restored(q, lo, step, signs, scale, m)
  {
    hide Schedule, Pow2, Backward;
    ghost var all := Restored(q, lo, step, signs, scale, m);
    out := [];
    var bx := 0;
    while bx * TILE < |q|
      invariant 0 <= bx && out == all[..Least(|q|, bx * TILE)]
      decreases |q| - bx * TILE
    {
      var rows := RestoreTile(q, bx, lo, step, signs, scale, m, orders);
      out := out + rows;
      bx := bx + 1;
    }
    assert all[..|q|] == all;
  }

  // ----- The round trip -----

  lemma FoldedCovers(had: seq<Vector>, dim: nat, lo: Vector, hi: Vector, i: nat)
    requires Folded(had, dim, lo, hi) && i < |had|
    ensures forall j :: 0 <= j < dim ==> lo[j] <= had[i][j] <= hi[j]
  {
    hide MinFold, MaxFold;
    forall j | 0 <= j < dim ensures lo[j] <= had[i][j] <= hi[j] {
      MinFoldBounds(Column(had, j), SENTINEL);
      MaxFoldBounds(Column(had, j), -SENTINEL);
      assert Column(had, j)[i] == had[i][j];
    }
  }

  lemma SameAsDequantized(q: seq<int>, had: Vector, lo: Vector, hi: Vector, step: Vector, levels: nat, round: Rounding)
    requires SymbolRow(q, had, lo, step, levels, round) && StepsOf(step, lo, hi, levels)
    ensures DequantRow(q, lo, step) == Dequantized(had, lo, hi, levels, round)
  {
    hide Symbol, Dequantize, StepSize;
  }

  ghost predicate NearestLevels(q: seq<int>, had: Vector, lo: Vector, hi: Vector, levels: nat) {
    && |q| == |had| == |lo| == |hi|
    && forall j :: 0 <= j < |q| ==> NearestLevel(q[j], had[j], lo[j], hi[j], levels)
  }

  lemma SymbolsNearest(q: seq<int>, had: Vector, lo: Vector, hi: Vector, step: Vector, levels: nat, round: Rounding)
    requires SymbolRow(q, had, lo, step, levels, round) && StepsOf(step, lo, hi, levels) && Nearest(round)
    requires forall j :: 0 <= j < |had| ==> lo[j] <= had[j] <= hi[j]
    ensures NearestLevels(q, had, lo, hi, levels)
  {
    hide Symbol, Dequantize, StepSize, Nearest, NearestLevel;
    forall j | 0 <= j < |q| ensures NearestLevel(q[j], had[j], lo[j], hi[j], levels) {
      HalfStep(had[j], lo[j], hi[j], levels, round);
    }
  }

  /** lo and hi are the extremes of channel j. */
  ghost predicate ChannelRange(had: seq<Vector>, j: nat, lo: real, hi: real) {
    && (forall i :: 0 <= i < |had| ==> j < |had[i]| && lo <= had[i][j] <= hi)
    && (exists i :: 0 <= i < |had| && j < |had[i]| && had[i][j] == lo)
    && (exists i :: 0 <= i < |had| && j < |had[i]| && had[i][j] == hi)
  }

  ghost predicate WithinSentinel(had: seq<Vector>, j: nat) {
    had != [] && forall i :: 0 <= i < |had| ==> j < |had[i]| && -SENTINEL <= had[i][j] <= SENTINEL
  }

  /** lo and hi are the true extremes of every channel whose coefficients lie within 1e10. */
  ghost predicate Extremes(had: seq<Vector>, dim: nat, lo: Vector, hi: Vector) {
    && |lo| == |hi| == dim
    && forall j :: 0 <= j < dim && WithinSentinel(had, j) ==> ChannelRange(had, j, lo[j], hi[j])
  }

  lemma FoldedExtremes(had: seq<Vector>, dim: nat, lo: Vector, hi: Vector)
    requires Folded(had, dim, lo, hi)
    ensures Extremes(had, dim, lo, hi)
  {
    forall j | 0 <= j < dim && WithinSentinel(had, j) ensures ChannelRange(had, j, lo[j], hi[j]) {
      assert had[0][j] <= SENTINEL && had[0][j] >= -SENTINEL;
      ChannelExtremes(had, dim, lo, hi, j);
      var c := Column(had, j);
      hide Folded, Column;
      assert forall i :: 0 <= i < |had| ==> c[i] == had[i][j] by { ColumnAt(had, j); }
      var a :| 0 <= a < |c| && c[a] == lo[j];
      var b :| 0 <= b < |c| && c[b] == hi[j];
      assert had[a][j] == lo[j] && had[b][j] == hi[j];
    }
  }

  lemma ColumnAt(had: seq<Vector>, j: nat)
    requires forall i :: 0 <= i < |had| ==> j < |had[i]|
    ensures |Column(had, j)| == |had| && forall i :: 0 <= i < |had| ==> Column(had, j)[i] == had[i][j]
  {
  }

  /** The emitted steps cut each range into levels - 1 parts. */
  ghost predicate StepsSpan(step: Vector, lo: Vector, hi: Vector, levels: nat) {
    && |step| == |lo| == |hi|
    && forall j :: 0 <= j < |step| ==> step[j] * (levels - 1) as real == Max(hi[j] - lo[j], MIN_DIFF)
  }

  lemma StepsOfSpan(step: Vector, lo: Vector, hi: Vector, levels: nat)
    requires StepsOf(step, lo, hi, levels)
    ensures StepsSpan(step, lo, hi, levels)
  {
    forall j | 0 <= j < |step| ensures step[j] * (levels - 1) as real == Max(hi[j] - lo[j], MIN_DIFF) {
      StepSpansRange(lo[j], hi[j], levels);
    }
  }

  /** Compressing a head along channels and restoring it, with hi the maxima that go with
      the emitted minima: they are the channels' extremes, each emitted step is the range
      divided by levels - 1, each symbol is the nearest level, and each row's squared error
      is at most the sum over the channels of (max(hi - lo, 1e-5) / (2 (levels - 1)))^2. */
  lemma ChannelErrorBound(kv: seq<Vector>, signs: Vector, scale: real, m: nat, levels: nat, round: Rounding,
                          q: seq<seq<int>>, lo: Vector, step: Vector, i: nat)
    returns (hi: Vector)
    requires Shape(kv, Pow2(m)) && |signs| == Pow2(m) && Signs(signs) && scale * scale * Pow2(m) as real == 1.0
    requires Nearest(round) && Compressed(kv, signs, scale, m, levels, round, q, lo, step) && i < |kv|
    ensures |q| == |kv| && SymbolShape(q, Pow2(m)) && |lo| == |hi| == |step| == Pow2(m) && levels >= 2
    ensures Extremes(Forwards(kv, signs, scale, m), Pow2(m), lo, hi) && StepsSpan(step, lo, hi, levels)
    ensures NearestLevels(q[i], Forwards(kv, signs, scale, m)[i], lo, hi, levels)
    ensures Norm2(Sub(Restored(q, lo, step, signs, scale, m)[i], kv[i])) <= Norm2(HalfSteps(lo, hi, levels))
  {
    hide Pow2, Signs, Nearest, Norm2, Forward, Backward, StepSize, Dequantized, HalfSteps, StepsSpan, Extremes;
    var had := Forwards(kv, signs, scale, m);
    hi :| && Folded(had, Pow2(m), lo, hi) && StepsOf(step, lo, hi, levels) && |q| == |kv|
          && forall i :: 0 <= i < |q| ==> SymbolRow(q[i], had[i], lo, step, levels, round);
    FoldedLength(had, Pow2(m), lo, hi);
    FoldedCovers(had, Pow2(m), lo, hi, i);
    FoldedExtremes(had, Pow2(m), lo, hi);
    hide Folded;
    StepsOfSpan(step, lo, hi, levels);
    SymbolsNearest(q[i], had[i], lo, hi, step, levels, round);
    SameAsDequantized(q[i], had[i], lo, hi, step, levels, round);
    RowErrorBound(kv[i], signs, scale, m, lo, hi, levels, round);
  }
}
