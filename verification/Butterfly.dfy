/** The in-place FWHT kernel of kvserve_v1/tilelang_ops/kv_hadamard_quant.py: `log_dim`
    levels over a tile, each level's index pairs handled in any order. */
module Butterfly {
  import opened Powers
  import opened Hadamard

  // ----- One level as a function -----

  /** n is a whole number of blocks of length b. */
  ghost predicate Blocks(n: int, b: nat)
    decreases n
  {
    n == 0 || (b > 0 && n >= b && Blocks(n - b, b))
  }

  /** Every aligned pair of neighbouring blocks (a, b) of length half becomes (a + b, a - b). */
  ghost function Level(x: Vector, half: nat): (r: Vector)
    requires half > 0 && Blocks(|x|, 2 * half)
    ensures |r| == |x|
    decreases |x|
  {
    if x == [] then []
    else
      var a, b := x[..half], x[half..2 * half];
      Add(a, b) + Sub(a, b) + Level(x[2 * half..], half)
  }

  // ----- Index pairs -----

  function Idx0(j: nat, half: nat): nat
    requires half > 0
  {
    Join(j / half, 2 * half, j % half)
  }

  /** The pair that touches index i. */
  function PairOf(i: nat, half: nat): nat
    requires half > 0
  {
    Join(i / (2 * half), half, i % (2 * half) % half)
  }

  predicate IsUpper(i: nat, half: nat)
    requires half > 0
  {
    i % (2 * half) >= half
  }

  lemma PairOfIndices(j: nat, half: nat)
    requires half > 0
    ensures PairOf(Idx0(j, half), half) == j && !IsUpper(Idx0(j, half), half)
    ensures PairOf(Idx0(j, half) + half, half) == j && IsUpper(Idx0(j, half) + half, half)
  {
    var q, r := j / half, j % half;
    DivMod(Idx0(j, half), 2 * half, q, r);
    DivMod(Idx0(j, half) + half, 2 * half, q, r + half);
    DivMod(r + half, half, 1, r);
    DivMod(r, half, 0, r);
  }

  lemma IndexOfPair(i: nat, half: nat)
    requires half > 0
    ensures Idx0(PairOf(i, half), half) + (if IsUpper(i, half) then half else 0) == i
  {
    var q, r := i / (2 * half), i % (2 * half);
    if r >= half { DivMod(r, half, 1, r - half); } else { DivMod(r, half, 0, r); }
    DivMod(PairOf(i, half), half, q, r % half);
  }

  lemma Idx0Next(j: nat, half: nat)
    requires half > 0 && j >= half
    ensures Idx0(j, half) == Idx0(j - half, half) + 2 * half
  {
    var q, r := (j - half) / half, (j - half) % half;
    assert (q + 1) * half + r == j by { assert q * half + r == j - half; }
    DivMod(j, half, q + 1, r);
    assert (q + 1) * (2 * half) == q * (2 * half) + 2 * half;
  }

  lemma Idx0First(j: nat, half: nat)
    requires j < half
    ensures Idx0(j, half) == j
  {
    DivMod(j, half, 0, j);
  }

  lemma {:induction false} PairInRange(j: nat, half: nat, n: nat)
    requires half > 0 && Blocks(n, 2 * half)
    ensures j < n / 2 ==> Idx0(j, half) + half < n
    ensures j >= n / 2 ==> Idx0(j, half) >= n
    decreases n
  {
    if n > 0 {
      if j < half {
        Idx0First(j, half);
      } else {
        Idx0Next(j, half);
        PairInRange(j - half, half, n - 2 * half);
      }
    }
  }

  /** The pairs of a level are a disjoint cover of the indices: i lies in exactly one
      pair, on exactly one side. */
  lemma PairsCoverOnce(n: nat, half: nat, i: nat, j: nat)
    requires half > 0 && Blocks(n, 2 * half) && i < n
    ensures PairOf(i, half) < n / 2
    ensures (i == Idx0(j, half) || i == Idx0(j, half) + half) <==> j == PairOf(i, half)
  {
    IndexOfPair(i, half);
    PairOfIndices(j, half);
    PairInRange(PairOf(i, half), half, n);
  }

  /** What a level leaves at both indices of pair j. */
  lemma {:induction false} LevelAt(x: Vector, half: nat, j: nat)
    requires half > 0 && Blocks(|x|, 2 * half) && j < |x| / 2
    ensures Idx0(j, half) + half < |x|
    ensures Level(x, half)[Idx0(j, half)] == x[Idx0(j, half)] + x[Idx0(j, half) + half]
    ensures Level(x, half)[Idx0(j, half) + half] == x[Idx0(j, half)] - x[Idx0(j, half) + half]
    decreases |x|
  {
    hide Idx0, Level;
    PairInRange(j, half, |x|);
    LevelFirst(x, half);
    if j < half {
      Idx0First(j, half);
    } else {
      Idx0Next(j, half);
      LevelAt(x[2 * half..], half, j - half);
    }
  }

  // ----- All levels compute the transform -----

  ghost function Levels(x: Vector, m: nat, s: nat): (r: Vector)
    requires |x| == Pow2(m) && s <= m
    ensures |r| == |x|
  {
    if s == 0 then x
    else
      PowBlocks(m, s);
      Level(Levels(x, m, s - 1), Pow2(s - 1))
  }

  lemma {:induction false} MoreBlocks(n: nat, k: nat, b: nat)
    requires Blocks(n, b) && Blocks(k, b)
    ensures Blocks(n + k, b)
    decreases n
  {
    if n > 0 { MoreBlocks(n - b, k, b); }
  }

  lemma {:induction false} PowBlocks(m: nat, s: nat)
    requires s <= m
    ensures Blocks(Pow2(m), Pow2(s))
  {
    if m > s {
      PowBlocks(m - 1, s);
      MoreBlocks(Pow2(m - 1), Pow2(m - 1), Pow2(s));
    }
  }

  lemma {:induction false} LevelAppend(l: Vector, r: Vector, half: nat)
    requires half > 0 && Blocks(|l|, 2 * half) && Blocks(|r|, 2 * half)
    ensures Blocks(|l + r|, 2 * half)
    ensures Level(l + r, half) == Level(l, half) + Level(r, half)
    decreases |l|
  {
    hide Level, Add, Sub;
    MoreBlocks(|l|, |r|, 2 * half);
    if l == [] {
      assert l + r == r && Level(l, half) == [];
    } else {
      LevelAppend(l[2 * half..], r, half);
      LevelFirst(l + r, half);
      LevelFirst(l, half);
      assert (l + r)[..half] == l[..half] && (l + r)[half..2 * half] == l[half..2 * half];
      assert (l + r)[2 * half..] == l[2 * half..] + r;
    }
  }

  lemma LevelFirst(x: Vector, half: nat)
    requires half > 0 && Blocks(|x|, 2 * half) && x != []
    ensures var a, b := x[..half], x[half..2 * half];
      Level(x, half) == Add(a, b) + Sub(a, b) + Level(x[2 * half..], half)
  {
  }

  lemma {:induction false} LevelsAppend(l: Vector, r: Vector, m: nat, s: nat)
    requires |l| == |r| == Pow2(m) && s <= m
    ensures Levels(l + r, m + 1, s) == Levels(l, m, s) + Levels(r, m, s)
  {
    if s > 0 {
      hide Level;
      LevelsAppend(l, r, m, s - 1);
      PowBlocks(m, s);
      LevelAppend(Levels(l, m, s - 1), Levels(r, m, s - 1), Pow2(s - 1));
    }
  }

  lemma LevelNothing(x: Vector, half: nat)
    requires half > 0 && x == []
    ensures Level(x, half) == []
  {
  }

  lemma LastLevel(a: Vector, b: Vector)
    requires |a| == |b| > 0
    ensures Blocks(|a + b|, 2 * |a|) && Level(a + b, |a|) == Add(a, b) + Sub(a, b)
  {
    hide Level, Add, Sub;
    assert Blocks(2 * |a|, 2 * |a|) by { assert Blocks(0, 2 * |a|); }
    LevelFirst(a + b, |a|);
    LevelNothing((a + b)[2 * |a|..], |a|);
    assert (a + b)[..|a|] == a && (a + b)[|a|..2 * |a|] == b && (a + b)[2 * |a|..] == [];
  }

  /** The levels of the kernel, in order, compute the transform. */
  lemma {:induction false} LevelsTransform(x: Vector, m: nat)
    requires |x| == Pow2(m)
    ensures Levels(x, m, m) == Transform(x, m)
  {
    hide Transform, Level;
    if m == 0 {
      TransformUnit(x);
    } else {
      var h := Pow2(m - 1);
      var l, r := x[..h], x[h..];
      assert x == l + r;
      LevelsTransform(l, m - 1);
      LevelsTransform(r, m - 1);
      LevelsAppend(l, r, m - 1, m - 1);
      Halves(l, r, m - 1);
      LastLevel(Transform(l, m - 1), Transform(r, m - 1));
    }
  }

  // ----- The kernel -----

  ghost function RowOf(data: array2<real>, i: nat): Vector
    reads data
    requires i < data.Length0
  {
    seq(data.Length1, c requires 0 <= c < data.Length1 reads data => data[i, c])
  }

  /** A schedule of one level: every (row, pair) once, in any order. */
  ghost predicate Schedule(order: seq<(nat, nat)>, rows: nat, pairs: nat) {
    && (forall k :: 0 <= k < |order| ==> order[k].0 < rows && order[k].1 < pairs)
    && (forall k, l :: 0 <= k < l < |order| ==> order[k] != order[l])
    && (forall i, j :: 0 <= i < rows && 0 <= j < pairs ==> (i, j) in order)
  }

  /** Entry c of row i after the pairs in `done` have been handled. */
  ghost function Partial(row: Vector, half: nat, i: nat, done: seq<(nat, nat)>, c: nat): real
    requires half > 0 && Blocks(|row|, 2 * half) && c < |row|
  {
    if (i, PairOf(c, half)) in done then Level(row, half)[c] else row[c]
  }

  /** One step of the parallel loop. */
  method HandlePair(data: array2<real>, i: nat, j: nat, half: nat)
    requires half > 0 && Blocks(data.Length1, 2 * half) && i < data.Length0 && j < data.Length1 / 2
    modifies data
    ensures Idx0(j, half) + half < data.Length1
    ensures var p, q := Idx0(j, half), Idx0(j, half) + half;
      && data[i, p] == old(data[i, p]) + old(data[i, q])
      && data[i, q] == old(data[i, p]) - old(data[i, q])
    ensures forall r, c :: 0 <= r < data.Length0 && 0 <= c < data.Length1 && (r != i || PairOf(c, half) != j) ==>
      data[r, c] == old(data[r, c])
  {
    PairInRange(j, half, data.Length1);
    PairOfIndices(j, half);
    var group, offset := j / half, j % half;
    var idx0 := group * (2 * half) + offset;
    var idx1 := idx0 + half;
    assert idx0 == Idx0(j, half);
    hide Idx0, PairOf, IsUpper;
    var a, b := data[i, idx0], data[i, idx1];
    data[i, idx0] := a + b;
    data[i, idx1] := a - b;
  }

  ghost predicate Rows(rows: seq<Vector>, data: array2<real>) {
    |rows| == data.Length0 && forall i :: 0 <= i < |rows| ==> |rows[i]| == data.Length1
  }

  ghost predicate Reached(data: array2<real>, rows: seq<Vector>, half: nat, done: seq<(nat, nat)>)
    reads data
    requires half > 0 && Blocks(data.Length1, 2 * half) && Rows(rows, data)
  {
    forall i, c :: 0 <= i < |rows| && 0 <= c < data.Length1 ==> data[i, c] == Partial(rows[i], half, i, done, c)
  }

  /** An entry of a pair once that pair is handled. */
  lemma HandledEntry(row: Vector, half: nat, j: nat, c: nat)
    requires half > 0 && Blocks(|row|, 2 * half) && j < |row| / 2 && c < |row| && PairOf(c, half) == j
    ensures var p, q := Idx0(j, half), Idx0(j, half) + half;
      && q < |row| && (c == p || c == q) && p != q
      && Level(row, half)[c] == if c == p then row[p] + row[q] else row[p] - row[q]
  {
    IndexOfPair(c, half);
    LevelAt(row, half, j);
  }

  lemma EndsOfPair(row: Vector, half: nat, i: nat, j: nat, done: seq<(nat, nat)>)
    requires half > 0 && Blocks(|row|, 2 * half) && j < |row| / 2 && (i, j) !in done
    ensures var p, q := Idx0(j, half), Idx0(j, half) + half;
      q < |row| && Partial(row, half, i, done, p) == row[p] && Partial(row, half, i, done, q) == row[q]
  {
    PairInRange(j, half, |row|);
    PairOfIndices(j, half);
  }

  method ReachNext(data: array2<real>, i: nat, j: nat, half: nat, ghost rows: seq<Vector>, ghost done: seq<(nat, nat)>)
    requires half > 0 && Blocks(data.Length1, 2 * half) && i < data.Length0 && j < data.Length1 / 2
    requires Rows(rows, data) && Reached(data, rows, half, done) && (i, j) !in done
    modifies data
    ensures Reached(data, rows, half, done + [(i, j)])
  {
    hide Idx0, PairOf, Level;
    EndsOfPair(rows[i], half, i, j, done);
    HandlePair(data, i, j, half);
    forall r, c | 0 <= r < |rows| && 0 <= c < data.Length1
      ensures data[r, c] == Partial(rows[r], half, r, done + [(i, j)], c)
    {
      if r == i && PairOf(c, half) == j {
        HandledEntry(rows[i], half, j, c);
      } else {
        assert (r, PairOf(c, half)) in done + [(i, j)] <==> (r, PairOf(c, half)) in done;
      }
    }
  }

  /** One level of the kernel, whatever the order in which the threads handle the pairs. */
  method ButterflyLevel(data: array2<real>, half: nat, order: seq<(nat, nat)>)
    requires half > 0 && Blocks(data.Length1, 2 * half) && Schedule(order, data.Length0, data.Length1 / 2)
    modifies data
    ensures forall i :: 0 <= i < data.Length0 ==> RowOf(data, i) == Level(old(RowOf(data, i)), half)
  {
    ghost var rows := seq(data.Length0, i requires 0 <= i < data.Length0 reads data => RowOf(data, i));
    var k := 0;
    assert order[..0] == [];
    while k < |order|
      invariant 0 <= k <= |order|
      invariant Reached(data, rows, half, order[..k])
    {
      assert order[..k] + [(order[k].0, order[k].1)] == order[..k + 1];
      ReachNext(data, order[k].0, order[k].1, half, rows, order[..k]);
      k := k + 1;
    }
    assert order[..k] == order;
    AllReached(data, rows, half, order);
  }

  lemma AllReached(data: array2<real>, rows: seq<Vector>, half: nat, order: seq<(nat, nat)>)
    requires half > 0 && Blocks(data.Length1, 2 * half) && Schedule(order, data.Length0, data.Length1 / 2)
    requires Rows(rows, data) && Reached(data, rows, half, order)
    ensures forall i :: 0 <= i < data.Length0 ==> RowOf(data, i) == Level(rows[i], half)
  {
    hide Idx0, PairOf, Level;
    forall i, c | 0 <= i < data.Length0 && 0 <= c < data.Length1 ensures RowOf(data, i)[c] == Level(rows[i], half)[c] {
      PairsCoverOnce(data.Length1, half, c, 0);
      assert data[i, c] == Partial(rows[i], half, i, order, c);
    }
    forall i | 0 <= i < data.Length0 ensures RowOf(data, i) == Level(rows[i], half) {
      assert |RowOf(data, i)| == |Level(rows[i], half)|;
    }
  }

  /** The butterfly stage of every kernel: each row of the tile becomes its Hadamard transform. */
  method Fwht(data: array2<real>, logDim: nat, orders: seq<seq<(nat, nat)>>)
    requires data.Length1 == Pow2(logDim) && |orders| == logDim
    requires forall s :: 0 <= s < logDim ==> Schedule(orders[s], data.Length0, data.Length1 / 2)
    modifies data
    ensures forall i :: 0 <= i < data.Length0 ==> RowOf(data, i) == Transform(old(RowOf(data, i)), logDim)
  {
    hide Level, Schedule, Transform, Pow2;
    var s, half := 0, 1;
    assert Pow2(0) == 1 by { PowUnfold(0); }
    while s < logDim
      invariant 0 <= s <= logDim && half == Pow2(s)
      invariant forall i :: 0 <= i < data.Length0 ==> RowOf(data, i) == Levels(old(RowOf(data, i)), logDim, s)
    {
      PowUnfold(s);
      PowBlocks(logDim, s + 1);
      ButterflyLevel(data, half, orders[s]);
      s, half := s + 1, 2 * half;
    }
    forall i | 0 <= i < data.Length0 ensures RowOf(data, i) == Transform(old(RowOf(data, i)), logDim) {
      LevelsTransform(old(RowOf(data, i)), logDim);
    }
  }

  lemma PowUnfold(s: nat)
    ensures Pow2(0) == 1 && Pow2(s + 1) == 2 * Pow2(s)
  {
  }
}
