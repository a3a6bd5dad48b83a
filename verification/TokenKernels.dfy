/** The token-axis quantizer of kvserve_v1/tilelang_ops/kv_hadamard_quant.py for one
    token: per-head row extremes, extremes across the heads of a group, and the
    error of the restored head vectors. */
module TokenKernels {
  import opened Numbers
  import opened Powers
  import opened Hadamard
  import opened Quantization
  import opened ChannelKernels

  /** Row reduction over the head dimension. */
  method RowReduce(had: Vector) returns (lo: real, hi: real)
    requires had != []
    ensures IsMin(had, lo) && IsMax(had, hi)
  {
    lo, hi := had[0], had[0];
    var j := 1;
    while j < |had|
      invariant 1 <= j <= |had|
      invariant IsMin(had[..j], lo) && IsMax(had[..j], hi)
    {
      assert had[..j + 1] == had[..j] + [had[j]];
      lo, hi := Min(lo, had[j]), Max(hi, had[j]);
      j := j + 1;
    }
    assert had[..j] == had;
  }

  /** The coefficients of the first n heads that belong to group g. */
  function GroupValues(hads: seq<Vector>, groupMap: seq<int>, g: int, n: nat): Vector
    requires n <= |hads| == |groupMap|
  {
    if n == 0 then []
    else GroupValues(hads, groupMap, g, n - 1) + (if groupMap[n - 1] == g then hads[n - 1] else [])
  }

  lemma FoldOfExtremes(s: Vector, lo: real, hi: real)
    requires IsMin(s, lo) && IsMax(s, hi)
    ensures MinFold(s, SENTINEL) == Min(SENTINEL, lo) && MaxFold(s, -SENTINEL) == Max(-SENTINEL, hi)
  {
    MinFoldBounds(s, SENTINEL);
    MaxFoldBounds(s, -SENTINEL);
  }

  lemma GroupFold(s: Vector, b: Vector, lo: real, hi: real)
    requires IsMin(b, lo) && IsMax(b, hi)
    ensures MinFold(s + b, SENTINEL) == Min(MinFold(s, SENTINEL), lo)
    ensures MaxFold(s + b, -SENTINEL) == Max(MaxFold(s, -SENTINEL), hi)
  {
    FoldAppend(s, b, SENTINEL, -SENTINEL);
    FoldOfExtremes(b, lo, hi);
    MinFoldBounds(s, SENTINEL);
    MaxFoldBounds(s, -SENTINEL);
  }

  ghost predicate RowExtremes(hads: seq<Vector>, rowMin: Vector, rowMax: Vector) {
    && |rowMin| == |rowMax| == |hads|
    && forall h :: 0 <= h < |hads| ==> IsMin(hads[h], rowMin[h]) && IsMax(hads[h], rowMax[h])
  }

  /** The reduction across the heads of the group of head `head`. */
  method GroupReduce(rowMin: Vector, rowMax: Vector, groupMap: seq<int>, head: nat, ghost hads: seq<Vector>)
    returns (lo: real, hi: real)
    requires RowExtremes(hads, rowMin, rowMax) && |groupMap| == |hads| && head < |hads|
    ensures var values := GroupValues(hads, groupMap, groupMap[head], |hads|);
      lo == MinFold(values, SENTINEL) && hi == MaxFold(values, -SENTINEL)
  {
    hide IsMin, IsMax, Min, Max, MinFold, MaxFold;
    var g := groupMap[head];
    lo, hi := SENTINEL, -SENTINEL;
    FoldOfNothing();
    var h := 0;
    while h < |groupMap|
      invariant 0 <= h <= |groupMap|
      invariant lo == MinFold(GroupValues(hads, groupMap, g, h), SENTINEL)
      invariant hi == MaxFold(GroupValues(hads, groupMap, g, h), -SENTINEL)
    {
      if groupMap[h] == g {
        GroupFold(GroupValues(hads, groupMap, g, h), hads[h], rowMin[h], rowMax[h]);
        lo, hi := Min(lo, rowMin[h]), Max(hi, rowMax[h]);
      } else {
        assert GroupValues(hads, groupMap, g, h + 1) == GroupValues(hads, groupMap, g, h);
      }
      h := h + 1;
    }
  }

  lemma FoldOfNothing()
    ensures MinFold([], SENTINEL) == SENTINEL && MaxFold([], -SENTINEL) == -SENTINEL
  {
  }

  /** Within the sentinel, the grouped reduction finds the true extremes of the group. */
  lemma GroupExtremes(hads: seq<Vector>, groupMap: seq<int>, head: nat)
    requires |groupMap| == |hads| && head < |hads|
    ensures var values := GroupValues(hads, groupMap, groupMap[head], |hads|);
      && (IsMin(values, MinFold(values, SENTINEL)) <==> exists i :: 0 <= i < |values| && values[i] <= SENTINEL)
      && (IsMax(values, MaxFold(values, -SENTINEL)) <==> exists i :: 0 <= i < |values| && values[i] >= -SENTINEL)
  {
    var values := GroupValues(hads, groupMap, groupMap[head], |hads|);
    SentinelMin(values);
    SentinelMax(values);
  }

  lemma {:induction false} GroupContains(hads: seq<Vector>, groupMap: seq<int>, g: int, n: nat, h: nat, j: nat)
    requires h < n <= |hads| == |groupMap| && groupMap[h] == g && j < |hads[h]|
    ensures hads[h][j] in GroupValues(hads, groupMap, g, n)
  {
    if h < n - 1 { GroupContains(hads, groupMap, g, n - 1, h, j); }
  }

  /** Head `head` of the token as the kernel writes it. */
  ghost predicate HeadCompressed(hads: seq<Vector>, groupMap: seq<int>, levels: seq<nat>, round: Rounding, head: nat,
                                 q: seq<int>, lo: real, step: real)
  {
    && head < |hads| == |groupMap| == |levels| && levels[head] >= 2
    && var values := GroupValues(hads, groupMap, groupMap[head], |hads|);
       && lo == MinFold(values, SENTINEL)
       && step == StepSize(lo, MaxFold(values, -SENTINEL), levels[head])
       && SymbolRow(q, hads[head], Constant(lo, |q|), Constant(step, |q|), levels[head], round)
  }

  function Constant(v: real, n: nat): Vector { seq(n, _ => v) }

  /** `token_quantize_grouped` for one row. */
  method CompressToken(hads: seq<Vector>, groupMap: seq<int>, levels: seq<nat>, round: Rounding)
    returns (q: seq<seq<int>>, gMin: Vector, gScale: Vector)
    requires |hads| == |groupMap| == |levels|
    requires forall h :: 0 <= h < |hads| ==> hads[h] != [] && levels[h] >= 2
    ensures |q| == |gMin| == |gScale| == |hads|
    ensures forall head :: 0 <= head < |hads| ==> HeadCompressed(hads, groupMap, levels, round, head, q[head], gMin[head], gScale[head])
  {
    hide IsMin, IsMax, MinFold, MaxFold, StepSize, SymbolRow, GroupValues;
    var rowMin, rowMax := RowReduceAll(hads);
    q, gMin, gScale := [], [], [];
    var head := 0;
    while head < |hads|
      invariant 0 <= head <= |hads| && |q| == |gMin| == |gScale| == head
      invariant forall h :: 0 <= h < head ==> HeadCompressed(hads, groupMap, levels, round, h, q[h], gMin[h], gScale[h])
    {
      var lo, hi := GroupReduce(rowMin, rowMax, groupMap, head, hads);
      var step := StepSize(lo, hi, levels[head]);
      var n := |hads[head]|;
      var row := QuantizeRow(hads[head], Constant(lo, n), Constant(step, n), levels[head], round);
      SymbolRowLength(row, hads[head], Constant(lo, n), Constant(step, n), levels[head], round);
      q, gMin, gScale := q + [row], gMin + [lo], gScale + [step];
      head := head + 1;
    }
  }

  lemma SymbolRowLength(q: seq<int>, had: Vector, lo: Vector, step: Vector, levels: nat, round: Rounding)
    requires SymbolRow(q, had, lo, step, levels, round)
    ensures |q| == |had|
  {
  }

  method RowReduceAll(hads: seq<Vector>) returns (rowMin: Vector, rowMax: Vector)
    requires forall h :: 0 <= h < |hads| ==> hads[h] != []
    ensures RowExtremes(hads, rowMin, rowMax)
  {
    hide IsMin, IsMax;
    rowMin, rowMax := [], [];
    var h := 0;
    while h < |hads|
      invariant 0 <= h <= |hads| && |rowMin| == |rowMax| == h
      invariant forall k :: 0 <= k < h ==> IsMin(hads[k], rowMin[k]) && IsMax(hads[k], rowMax[k])
    {
      var lo, hi := RowReduce(hads[h]);
      rowMin, rowMax := rowMin + [lo], rowMax + [hi];
      h := h + 1;
    }
  }

  /** Coefficient j of head h shares the range of head `head`. */
  ghost predicate InGroup(hads: seq<Vector>, groupMap: seq<int>, head: nat, h: nat, j: nat) {
    head < |hads| == |groupMap| && h < |hads| && groupMap[h] == groupMap[head] && j < |hads[h]|
  }

  ghost predicate GroupWithin(hads: seq<Vector>, groupMap: seq<int>, head: nat) {
    forall h: nat, j: nat :: InGroup(hads, groupMap, head, h, j) ==> -SENTINEL <= hads[h][j] <= SENTINEL
  }

  /** lo and hi are the extremes of the coefficients of the head's group. */
  ghost predicate GroupRange(hads: seq<Vector>, groupMap: seq<int>, head: nat, lo: real, hi: real) {
    && (forall h: nat, j: nat :: InGroup(hads, groupMap, head, h, j) ==> lo <= hads[h][j] <= hi)
    && (exists h: nat, j: nat :: InGroup(hads, groupMap, head, h, j) && hads[h][j] == lo)
    && (exists h: nat, j: nat :: InGroup(hads, groupMap, head, h, j) && hads[h][j] == hi)
  }

  lemma {:induction false} GroupMember(hads: seq<Vector>, groupMap: seq<int>, head: nat, n: nat, v: real) returns (h: nat, j: nat)
    requires head < |hads| == |groupMap| && n <= |hads| && v in GroupValues(hads, groupMap, groupMap[head], n)
    ensures InGroup(hads, groupMap, head, h, j) && hads[h][j] == v
    decreases n
  {
    if v in GroupValues(hads, groupMap, groupMap[head], n - 1) {
      h, j := GroupMember(hads, groupMap, head, n - 1, v);
    } else {
      h := n - 1;
      j :| 0 <= j < |hads[h]| && hads[h][j] == v;
    }
  }

  /** Within the sentinel the folds are the group's extremes, over exactly its heads. */
  lemma FoldsAreRange(hads: seq<Vector>, groupMap: seq<int>, head: nat)
    requires head < |hads| == |groupMap| && hads[head] != [] && GroupWithin(hads, groupMap, head)
    ensures var values := GroupValues(hads, groupMap, groupMap[head], |hads|);
      GroupRange(hads, groupMap, head, MinFold(values, SENTINEL), MaxFold(values, -SENTINEL))
  {
    var values := GroupValues(hads, groupMap, groupMap[head], |hads|);
    var lo, hi := MinFold(values, SENTINEL), MaxFold(values, -SENTINEL);
    GroupContains(hads, groupMap, groupMap[head], |hads|, head, 0);
    assert InGroup(hads, groupMap, head, head, 0);
    var k :| 0 <= k < |values| && values[k] == hads[head][0];
    GroupExtremes(hads, groupMap, head);
    assert IsMin(values, lo) && IsMax(values, hi);
    hide MinFold, MaxFold, GroupValues;
    forall h: nat, j: nat | InGroup(hads, groupMap, head, h, j) ensures lo <= hads[h][j] <= hi {
      GroupContains(hads, groupMap, groupMap[head], |hads|, h, j);
    }
    var a, b := GroupMember(hads, groupMap, head, |hads|, lo);
    var c, d := GroupMember(hads, groupMap, head, |hads|, hi);
  }

  /** Compressing a token with grouped heads and restoring head `head`, with hi the maximum
      that goes with the emitted minimum: they are the extremes of the head's group, the
      emitted step is the range divided by levels - 1, each symbol is the nearest level, and
      the squared error is at most |q| times (max(hi - lo, 1e-5) / (2 (levels - 1)))^2. */
  lemma TokenErrorBound(kv: seq<Vector>, signs: seq<Vector>, scale: real, m: nat, groupMap: seq<int>, levels: seq<nat>,
                        round: Rounding, head: nat, q: seq<int>, lo: real, step: real)
    returns (hi: real)
    requires head < |kv| == |signs| && Shape(kv, Pow2(m)) && Shape(signs, Pow2(m)) && Signs(signs[head])
    requires scale * scale * Pow2(m) as real == 1.0 && Nearest(round)
    requires HeadCompressed(HeadForwards(kv, signs, scale, m), groupMap, levels, round, head, q, lo, step)
    ensures |q| == Pow2(m)
    ensures var hads := HeadForwards(kv, signs, scale, m);
      GroupWithin(hads, groupMap, head) ==> GroupRange(hads, groupMap, head, lo, hi)
    ensures step * (levels[head] - 1) as real == Max(hi - lo, MIN_DIFF)
    ensures NearestLevels(q, HeadForwards(kv, signs, scale, m)[head], Constant(lo, |q|), Constant(hi, |q|), levels[head])
    ensures var y := DequantRow(q, Constant(lo, |q|), Constant(step, |q|));
      |y| == |signs[head]| == Pow2(m) && levels[head] >= 2 &&
      Norm2(Sub(Backward(y, signs[head], scale, m), kv[head])) <= Norm2(HalfSteps(Constant(lo, |q|), Constant(hi, |q|), levels[head]))
  {
    hide Pow2, Signs, Nearest, Norm2, Forward, Backward, StepSize, Dequantized, MinFold, MaxFold, HalfSteps, GroupRange, GroupWithin, NearestLevels;
    var hads := HeadForwards(kv, signs, scale, m);
    var had := hads[head];
    SymbolRowLength(q, had, Constant(lo, |q|), Constant(step, |q|), levels[head], round);
    var values := GroupValues(hads, groupMap, groupMap[head], |hads|);
    hi := MaxFold(values, -SENTINEL);
    if GroupWithin(hads, groupMap, head) { FoldsAreRange(hads, groupMap, head); }
    StepSpansRange(lo, hi, levels[head]);
    var los, his, steps := Constant(lo, |q|), Constant(hi, |q|), Constant(step, |q|);
    forall j | 0 <= j < |had| ensures los[j] <= had[j] <= his[j] {
      GroupContains(hads, groupMap, groupMap[head], |hads|, head, j);
      MinFoldBounds(values, SENTINEL);
      MaxFoldBounds(values, -SENTINEL);
    }
    SymbolsNearest(q, had, los, his, steps, levels[head], round);
    SameAsDequantized(q, had, los, his, steps, levels[head], round);
    RowErrorBound(kv[head], signs[head], scale, m, los, his, levels[head], round);
  }

  /** The Hadamard coefficients of one token, head by head. */
  ghost function HeadForwards(kv: seq<Vector>, signs: seq<Vector>, scale: real, m: nat): (r: seq<Vector>)
    requires |kv| == |signs| && Shape(kv, Pow2(m)) && Shape(signs, Pow2(m))
    ensures |r| == |kv| && Shape(r, Pow2(m))
  {
    seq(|kv|, h requires 0 <= h < |kv| => Forward(kv[h], signs[h], scale, m))
  }
}
