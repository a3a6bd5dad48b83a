/** The fast Walsh-Hadamard butterfly of kvserve_v1/tilelang_ops/kv_hadamard_quant.py,
    over exact reals.  `Transform` is the recursive definition of the transform;
    the in-place kernel, with its index pairs taken in any order, is proved equal to it. */
module Hadamard {
  import opened Powers

  type Vector = seq<real>

  // ----- Vectors -----

  /** Multiplication under a name, so that proofs can use its laws one at a time. */
  function Mul(a: real, b: real): real { a * b }

  lemma MulAdd(c: real, a: real, b: real)
    ensures Mul(c, a + b) == Mul(c, a) + Mul(c, b)
    ensures Mul(c, a - b) == Mul(c, a) - Mul(c, b)
  {
  }

  function Add(x: Vector, y: Vector): (r: Vector)
    requires |x| == |y|
    ensures |r| == |x|
  {
    seq(|x|, i requires 0 <= i < |x| => x[i] + y[i])
  }

  function Sub(x: Vector, y: Vector): (r: Vector)
    requires |x| == |y|
    ensures |r| == |x|
  {
    seq(|x|, i requires 0 <= i < |x| => x[i] - y[i])
  }

  function Scale(c: real, x: Vector): (r: Vector)
    ensures |r| == |x|
  {
    seq(|x|, i requires 0 <= i < |x| => Mul(c, x[i]))
  }

  /** Componentwise product, as with the Rademacher signs. */
  function Times(x: Vector, y: Vector): (r: Vector)
    requires |x| == |y|
    ensures |r| == |x|
  {
    seq(|x|, i requires 0 <= i < |x| => Mul(x[i], y[i]))
  }

  function Norm2(x: Vector): real {
    if x == [] then 0.0 else Mul(x[0], x[0]) + Norm2(x[1..])
  }

  // ----- The transform -----

  function Transform(x: Vector, m: nat): (r: Vector)
    requires |x| == Pow2(m)
    ensures |r| == |x|
  {
    if m == 0 then x
    else
      var h := Pow2(m - 1);
      var a, b := Transform(x[..h], m - 1), Transform(x[h..], m - 1);
      Add(a, b) + Sub(a, b)
  }

  lemma Halves(x: Vector, y: Vector, m: nat)
    requires |x| == |y| == Pow2(m)
    ensures Transform(x + y, m + 1) == Add(Transform(x, m), Transform(y, m)) + Sub(Transform(x, m), Transform(y, m))
  {
    assert (x + y)[..Pow2(m)] == x && (x + y)[Pow2(m)..] == y;
  }

  lemma {:induction false} TransformAdd(x: Vector, y: Vector, m: nat)
    requires |x| == |y| == Pow2(m)
    ensures Transform(Add(x, y), m) == Add(Transform(x, m), Transform(y, m))
  {
    hide Transform, Add;
    if m == 0 {
      TransformUnit(x);
      TransformUnit(y);
      TransformUnit(Add(x, y));
    } else {
      var h := Pow2(m - 1);
      var a, b, c, d := x[..h], x[h..], y[..h], y[h..];
      TransformAdd(a, c, m - 1);
      TransformAdd(b, d, m - 1);
      assert x == a + b && y == c + d;
      AddAppend(a, b, c, d);
      Halves(a, b, m - 1);
      Halves(c, d, m - 1);
      Halves(Add(a, c), Add(b, d), m - 1);
      AddHalves(Transform(a, m - 1), Transform(b, m - 1), Transform(c, m - 1), Transform(d, m - 1));
    }
  }

  lemma TransformUnit(x: Vector)
    requires |x| == 1
    ensures Transform(x, 0) == x
  {
  }

  lemma AddAppend(a: Vector, b: Vector, c: Vector, d: Vector)
    requires |a| == |c| && |b| == |d|
    ensures Add(a + b, c + d) == Add(a, c) + Add(b, d)
  {
  }

  lemma AddHalves(a: Vector, b: Vector, c: Vector, d: Vector)
    requires |a| == |b| == |c| == |d|
    ensures Add(Add(a, c), Add(b, d)) + Sub(Add(a, c), Add(b, d)) == Add(Add(a, b) + Sub(a, b), Add(c, d) + Sub(c, d))
  {
  }

  lemma ScaleHalves(c: real, a: Vector, b: Vector)
    requires |a| == |b|
    ensures Scale(c, a + b) == Scale(c, a) + Scale(c, b)
    ensures Scale(c, Add(a, b)) == Add(Scale(c, a), Scale(c, b))
    ensures Scale(c, Sub(a, b)) == Sub(Scale(c, a), Scale(c, b))
  {
    hide Mul;
    forall i | 0 <= i < |a|
      ensures Mul(c, a[i] + b[i]) == Mul(c, a[i]) + Mul(c, b[i]) && Mul(c, a[i] - b[i]) == Mul(c, a[i]) - Mul(c, b[i])
    {
      MulAdd(c, a[i], b[i]);
    }
  }

  lemma {:induction false} TransformScale(c: real, x: Vector, m: nat)
    requires |x| == Pow2(m)
    ensures Transform(Scale(c, x), m) == Scale(c, Transform(x, m))
  {
    hide Mul, Transform, Scale, Add, Sub;
    if m == 0 {
      TransformUnit(x);
      TransformUnit(Scale(c, x));
    } else {
      var h := Pow2(m - 1);
      var a, b := x[..h], x[h..];
      TransformScale(c, a, m - 1);
      TransformScale(c, b, m - 1);
      assert x == a + b;
      ScaleHalves(c, a, b);
      Halves(a, b, m - 1);
      Halves(Scale(c, a), Scale(c, b), m - 1);
      var ta, tb := Transform(a, m - 1), Transform(b, m - 1);
      ScaleHalves(c, ta, tb);
      ScaleHalves(c, Add(ta, tb), Sub(ta, tb));
    }
  }

  lemma Minus(x: Vector, y: Vector)
    requires |x| == |y|
    ensures Sub(x, y) == Add(x, Scale(-1.0, y))
  {
    assert forall i :: 0 <= i < |y| ==> Mul(-1.0, y[i]) == -y[i];
    hide Mul;
  }

  lemma TransformSub(x: Vector, y: Vector, m: nat)
    requires |x| == |y| == Pow2(m)
    ensures Transform(Sub(x, y), m) == Sub(Transform(x, m), Transform(y, m))
  {
    hide *;
    TransformScale(-1.0, y, m);
    TransformAdd(x, Scale(-1.0, y), m);
    Minus(x, y);
    Minus(Transform(x, m), Transform(y, m));
  }

  /** Applied twice, the transform multiplies by the length. */
  lemma {:induction false} TransformTwice(x: Vector, m: nat)
    requires |x| == Pow2(m)
    ensures Transform(Transform(x, m), m) == Scale(Pow2(m) as real, x)
  {
    if m == 0 {
      assert Mul(1.0, x[0]) == x[0];
    } else {
      hide Mul, Transform, Scale;
      var h := Pow2(m - 1);
      var l, r := x[..h], x[h..];
      TransformTwice(l, m - 1);
      TransformTwice(r, m - 1);
      TwiceStep(l, r, m - 1);
      assert x == l + r;
    }
  }

  lemma TwiceStep(l: Vector, r: Vector, m: nat)
    requires |l| == |r| == Pow2(m)
    requires Transform(Transform(l, m), m) == Scale(Pow2(m) as real, l)
    requires Transform(Transform(r, m), m) == Scale(Pow2(m) as real, r)
    ensures Transform(Transform(l + r, m + 1), m + 1) == Scale(Pow2(m + 1) as real, l + r)
  {
    hide Transform, Scale, Mul;
    var a, b := Transform(l, m), Transform(r, m);
    Halves(l, r, m);
    Halves(Add(a, b), Sub(a, b), m);
    TransformAdd(a, b, m);
    TransformSub(a, b, m);
    var c := Pow2(m) as real;
    SumAndDifference(Scale(c, l), Scale(c, r));
    Double(c, l);
    Double(c, r);
    ScaleHalves(2.0 * c, l, r);
  }

  lemma SumAndDifference(a: Vector, b: Vector)
    requires |a| == |b|
    ensures Add(Add(a, b), Sub(a, b)) == Add(a, a) && Sub(Add(a, b), Sub(a, b)) == Add(b, b)
  {
  }

  lemma Double(c: real, x: Vector)
    ensures Add(Scale(c, x), Scale(c, x)) == Scale(2.0 * c, x)
  {
    forall i | 0 <= i < |x| ensures Mul(c, x[i]) + Mul(c, x[i]) == Mul(2.0 * c, x[i]) { TwiceMul(c, x[i]); }
    hide Mul;
  }

  lemma TwiceMul(c: real, a: real)
    ensures Mul(c, a) + Mul(c, a) == Mul(2.0 * c, a)
  {
  }

  // ----- The transform is the Hadamard matrix -----

  function Both(i: nat, j: nat): nat {
    if i % 2 == 1 && j % 2 == 1 then 1 else 0
  }

  function And(i: nat, j: nat): nat {
    if i == 0 || j == 0 then 0 else 2 * And(i / 2, j / 2) + Both(i, j)
  }

  function Popcount(i: nat): nat {
    if i == 0 then 0 else i % 2 + Popcount(i / 2)
  }

  /** (-1)^popcount(i & j) * v */
  function Signed(i: nat, j: nat, v: real): real {
    if Popcount(And(i, j)) % 2 == 0 then v else -v
  }

  /** Row i of the Hadamard matrix times x, where x holds the entries from j on. */
  function Row(i: nat, j: nat, x: Vector): real
    decreases |x|
  {
    if x == [] then 0.0 else Signed(i, j, x[0]) + Row(i, j + 1, x[1..])
  }

  lemma AndStep(i: nat, j: nat)
    ensures And(i, j) == 2 * And(i / 2, j / 2) + Both(i, j)
  {
    if i == 0 || j == 0 {
      assert And(i / 2, j / 2) == 0;
    }
  }

  lemma PopcountStep(k: nat, b: nat)
    requires b <= 1
    ensures Popcount(2 * k + b) == Popcount(k) + b
  {
    assert (2 * k + b) / 2 == k && (2 * k + b) % 2 == b;
  }

  lemma OneBit()
    ensures And(0, 0) == And(1, 0) == And(0, 1) == 0 && And(1, 1) == 1
    ensures Popcount(0) == 0 && Popcount(1) == 1
  {
    AndStep(1, 1);
    PopcountStep(0, 1);
  }

  /** The top bit of both indices adds one to the count, of either alone nothing. */
  lemma {:induction false} TopBit(m: nat, i: nat, j: nat)
    requires i < Pow2(m) && j < Pow2(m)
    ensures Popcount(And(i + Pow2(m), j + Pow2(m))) == Popcount(And(i, j)) + 1
    ensures And(i + Pow2(m), j) == And(i, j) == And(i, j + Pow2(m))
  {
    hide And, Popcount;
    if m == 0 {
      OneBit();
    } else {
      TopBit(m - 1, i / 2, j / 2);
      TopBitStep(Pow2(m - 1), i, j);
    }
  }

  lemma TopBitStep(h: nat, i: nat, j: nat)
    requires Popcount(And(i / 2 + h, j / 2 + h)) == Popcount(And(i / 2, j / 2)) + 1
    requires And(i / 2 + h, j / 2) == And(i / 2, j / 2) == And(i / 2, j / 2 + h)
    ensures Popcount(And(i + 2 * h, j + 2 * h)) == Popcount(And(i, j)) + 1
    ensures And(i + 2 * h, j) == And(i, j) == And(i, j + 2 * h)
  {
    hide And, Popcount;
    Shifted(i, h);
    Shifted(j, h);
    AndStep(i, j);
    AndStep(i + 2 * h, j);
    AndStep(i, j + 2 * h);
    AndStep(i + 2 * h, j + 2 * h);
    PopcountStep(And(i / 2, j / 2), Both(i, j));
    PopcountStep(And(i / 2 + h, j / 2 + h), Both(i, j));
  }

  lemma Shifted(i: nat, h: nat)
    ensures (i + 2 * h) / 2 == i / 2 + h && (i + 2 * h) % 2 == i % 2
  {
  }

  lemma SignTop(m: nat, i: nat, j: nat, v: real)
    requires i < Pow2(m) && j < Pow2(m)
    ensures Signed(i + Pow2(m), j + Pow2(m), v) == -Signed(i, j, v)
    ensures Signed(i + Pow2(m), j, v) == Signed(i, j, v) == Signed(i, j + Pow2(m), v)
  {
    hide And, Popcount, Pow2;
    TopBit(m, i, j);
  }

  lemma {:induction false} RowAppend(i: nat, j: nat, x: Vector, y: Vector)
    ensures Row(i, j, x + y) == Row(i, j, x) + Row(i, j + |x|, y)
    decreases |x|
  {
    hide Signed;
    if x == [] {
      assert x + y == y;
    } else {
      assert (x + y)[1..] == x[1..] + y;
      RowAppend(i, j + 1, x[1..], y);
    }
  }

  /** Moving the columns up by 2^m leaves row i < 2^m alone and negates row i + 2^m. */
  lemma {:induction false} RowShift(m: nat, i: nat, j: nat, x: Vector)
    requires i < Pow2(m) && j + |x| <= Pow2(m)
    ensures Row(i, j + Pow2(m), x) == Row(i, j, x)
    ensures Row(i + Pow2(m), j, x) == Row(i, j, x)
    ensures Row(i + Pow2(m), j + Pow2(m), x) == -Row(i, j, x)
    decreases |x|
  {
    if x != [] {
      hide Signed, Pow2;
      SignTop(m, i, j, x[0]);
      assert (j + 1) + Pow2(m) == (j + Pow2(m)) + 1;
      RowShift(m, i, j + 1, x[1..]);
    }
  }

  /** y_i is the sum over j of (-1)^popcount(i & j) x_j. */
  lemma {:induction false} TransformIsHadamard(x: Vector, m: nat, i: nat)
    requires |x| == Pow2(m) && i < |x|
    ensures Transform(x, m)[i] == Row(i, 0, x)
  {
    hide Transform, Row;
    if m == 0 {
      TransformUnit(x);
      RowUnit(x);
    } else {
      var h := Pow2(m - 1);
      var l, r := x[..h], x[h..];
      var k := if i < h then i else i - h;
      TransformIsHadamard(l, m - 1, k);
      TransformIsHadamard(r, m - 1, k);
      assert x == l + r;
      Halves(l, r, m - 1);
      RowAppend(i, 0, l, r);
      RowShift(m - 1, k, 0, l);
      RowShift(m - 1, k, 0, r);
    }
  }

  lemma RowUnit(x: Vector)
    requires |x| == 1
    ensures Row(0, 0, x) == x[0]
  {
    assert Row(0, 1, x[1..]) == 0.0;
  }

  // ----- Norms -----

  lemma {:induction false} NormAppend(x: Vector, y: Vector)
    ensures Norm2(x + y) == Norm2(x) + Norm2(y)
  {
    hide Mul;
    if x == [] {
      assert x + y == y;
    } else {
      assert (x + y)[1..] == x[1..] + y;
      NormAppend(x[1..], y);
    }
  }

  lemma Squares(a: real, b: real)
    ensures Mul(a + b, a + b) + Mul(a - b, a - b) == 2.0 * Mul(a, a) + 2.0 * Mul(b, b)
  {
  }

  lemma {:induction false} Parallelogram(a: Vector, b: Vector)
    requires |a| == |b|
    ensures Norm2(Add(a, b)) + Norm2(Sub(a, b)) == 2.0 * Norm2(a) + 2.0 * Norm2(b)
  {
    if a != [] {
      Squares(a[0], b[0]);
      hide Mul;
      assert Add(a, b)[1..] == Add(a[1..], b[1..]) && Sub(a, b)[1..] == Sub(a[1..], b[1..]);
      Parallelogram(a[1..], b[1..]);
    }
  }

  lemma {:induction false} TransformNorm(x: Vector, m: nat)
    requires |x| == Pow2(m)
    ensures Norm2(Transform(x, m)) == Mul(Pow2(m) as real, Norm2(x))
  {
    hide Norm2;
    if m > 0 {
      var h := Pow2(m - 1);
      var l, r := x[..h], x[h..];
      TransformNorm(l, m - 1);
      TransformNorm(r, m - 1);
      hide Transform, Mul;
      var a, b := Transform(l, m - 1), Transform(r, m - 1);
      assert x == l + r;
      NormAppend(l, r);
      NormAppend(Add(a, b), Sub(a, b));
      Parallelogram(a, b);
      Halves(l, r, m - 1);
      TwiceMul(h as real, Norm2(l));
      TwiceMul(h as real, Norm2(r));
      MulAdd(Pow2(m) as real, Norm2(l), Norm2(r));
    }
  }

  lemma MulSquare(c: real, a: real)
    ensures Mul(Mul(c, a), Mul(c, a)) == Mul(Mul(c, c), Mul(a, a))
  {
  }

  lemma {:induction false} NormScale(c: real, x: Vector)
    ensures Norm2(Scale(c, x)) == Mul(Mul(c, c), Norm2(x))
  {
    if x == [] {
      assert Mul(Mul(c, c), 0.0) == 0.0;
    } else {
      MulSquare(c, x[0]);
      MulAdd(Mul(c, c), Mul(x[0], x[0]), Norm2(x[1..]));
      NormScale(c, x[1..]);
      hide Mul;
      assert Scale(c, x)[1..] == Scale(c, x[1..]);
    }
  }

  ghost predicate Signs(s: Vector) {
    forall i :: 0 <= i < |s| ==> s[i] == 1.0 || s[i] == -1.0
  }

  lemma {:induction false} NormTimes(x: Vector, s: Vector)
    requires |x| == |s| && Signs(s)
    ensures Norm2(Times(x, s)) == Norm2(x)
  {
    if x != [] {
      assert Mul(Mul(x[0], s[0]), Mul(x[0], s[0])) == Mul(x[0], x[0]);
      hide Mul;
      assert Times(x, s)[1..] == Times(x[1..], s[1..]);
      NormTimes(x[1..], s[1..]);
    }
  }

  // ----- The two fused directions -----

  /** Signs, transform, scale: what the forward kernels leave in `data`. */
  function Forward(x: Vector, signs: Vector, scale: real, m: nat): (r: Vector)
    requires |x| == |signs| == Pow2(m)
    ensures |r| == |x|
  {
    Scale(scale, Transform(Times(x, signs), m))
  }

  /** Transform, scale, signs: the inverse kernels after dequantizing. */
  function Backward(y: Vector, signs: Vector, scale: real, m: nat): (r: Vector)
    requires |y| == |signs| == Pow2(m)
    ensures |r| == |y|
  {
    Times(Scale(scale, Transform(y, m)), signs)
  }

  /** The sum over j of (-1)^popcount(i & j) x_j s_j, where x and s hold the entries from j on. */
  function SignedRow(i: nat, j: nat, x: Vector, s: Vector): real
    requires |x| == |s|
    decreases |x|
  {
    if x == [] then 0.0 else Signed(i, j, x[0] * s[0]) + SignedRow(i, j + 1, x[1..], s[1..])
  }

  lemma {:induction false} RowOfTimes(i: nat, j: nat, x: Vector, s: Vector)
    requires |x| == |s|
    ensures Row(i, j, Times(x, s)) == SignedRow(i, j, x, s)
    decreases |x|
  {
    hide Signed;
    if x != [] {
      assert Times(x, s)[1..] == Times(x[1..], s[1..]);
      RowOfTimes(i, j + 1, x[1..], s[1..]);
    }
  }

  /** Coefficient by coefficient: the forward kernels give scale times the signed Hadamard
      sum of the sign-flipped entries. */
  lemma ForwardAt(x: Vector, signs: Vector, scale: real, m: nat, i: nat)
    requires |x| == |signs| == Pow2(m) && i < |x|
    ensures Forward(x, signs, scale, m)[i] == scale * SignedRow(i, 0, x, signs)
  {
    hide Row, SignedRow, Transform;
    TransformIsHadamard(Times(x, signs), m, i);
    RowOfTimes(i, 0, x, signs);
  }

  /** Entry by entry: the inverse kernels flip the sign after transform and scale. */
  lemma BackwardAt(y: Vector, signs: Vector, scale: real, m: nat, i: nat)
    requires |y| == |signs| == Pow2(m) && i < |y|
    ensures Backward(y, signs, scale, m)[i] == scale * Row(i, 0, y) * signs[i]
  {
    hide Row, Transform;
    TransformIsHadamard(y, m, i);
  }

  /** With scale = 1 / sqrt(n) the inverse kernel undoes the forward one. */
  lemma BackwardForward(x: Vector, signs: Vector, scale: real, m: nat)
    requires |x| == |signs| == Pow2(m) && Signs(signs) && scale * scale * Pow2(m) as real == 1.0
    ensures Backward(Forward(x, signs, scale, m), signs, scale, m) == x
  {
    hide Transform, Pow2, Mul;
    var u, n := Times(x, signs), Pow2(m) as real;
    TransformScale(scale, Transform(u, m), m);
    TransformTwice(u, m);
    var back := Backward(Forward(x, signs, scale, m), signs, scale, m);
    forall i | 0 <= i < |x| ensures back[i] == x[i] {
      assert back[i] == Mul(Mul(scale, Mul(scale, Mul(n, Mul(x[i], signs[i])))), signs[i]);
      Undo(scale, n, x[i], signs[i]);
    }
  }

  lemma Undo(c: real, n: real, x: real, s: real)
    requires c * c * n == 1.0 && (s == 1.0 || s == -1.0)
    ensures Mul(Mul(c, Mul(c, Mul(n, Mul(x, s)))), s) == x
  {
    Regroup(c, n, Mul(x, s));
    assert 1.0 * Mul(x, s) == Mul(x, s);
  }

  lemma Regroup(c: real, n: real, v: real)
    ensures Mul(c, Mul(c, Mul(n, v))) == (c * c * n) * v
  {
    assert c * (c * (n * v)) == (c * c) * (n * v) == (c * c * n) * v;
  }

  lemma BackwardNorm(e: Vector, signs: Vector, scale: real, m: nat)
    requires |e| == |signs| == Pow2(m) && Signs(signs) && scale * scale * Pow2(m) as real == 1.0
    ensures Norm2(Backward(e, signs, scale, m)) == Norm2(e)
  {
    hide Transform, Norm2, Pow2, Mul, Signs, Scale, Times;
    var t := Transform(e, m);
    NormTimes(Scale(scale, t), signs);
    NormScale(scale, t);
    TransformNorm(e, m);
    NormUndo(scale, Pow2(m) as real, Norm2(e));
  }

  lemma NormUndo(c: real, n: real, v: real)
    requires c * c * n == 1.0
    ensures Mul(Mul(c, c), Mul(n, v)) == v
  {
    Regroup(c, n, v);
    assert Mul(Mul(c, c), Mul(n, v)) == Mul(c, Mul(c, Mul(n, v)));
    assert 1.0 * v == v;
  }

  lemma MulSub(c: real, a: real, b: real, s: real)
    ensures Mul(Mul(c, a), s) - Mul(Mul(c, b), s) == Mul(Mul(c, a - b), s)
  {
    MulAdd(c, a, b);
    assert (Mul(c, a) - Mul(c, b)) * s == Mul(c, a) * s - Mul(c, b) * s;
  }

  lemma BackwardSub(y: Vector, z: Vector, signs: Vector, scale: real, m: nat)
    requires |y| == |z| == |signs| == Pow2(m)
    ensures Sub(Backward(y, signs, scale, m), Backward(z, signs, scale, m)) == Backward(Sub(y, z), signs, scale, m)
  {
    hide Transform, Pow2, Mul;
    TransformSub(y, z, m);
    var a, b := Transform(y, m), Transform(z, m);
    forall i | 0 <= i < |y|
      ensures Mul(Mul(scale, a[i]), signs[i]) - Mul(Mul(scale, b[i]), signs[i]) == Mul(Mul(scale, a[i] - b[i]), signs[i])
    {
      MulSub(scale, a[i], b[i], signs[i]);
    }
  }

  /** Norm preservation: the squared error of the restored vector is exactly the
      squared error of the coefficients. */
  lemma ErrorIsPreserved(x: Vector, y: Vector, signs: Vector, scale: real, m: nat)
    requires |x| == |y| == |signs| == Pow2(m) && Signs(signs) && scale * scale * Pow2(m) as real == 1.0
    ensures Norm2(Sub(Backward(y, signs, scale, m), x)) == Norm2(Sub(y, Forward(x, signs, scale, m)))
  {
    hide Transform, Norm2, Pow2, Forward, Backward;
    var f := Forward(x, signs, scale, m);
    BackwardForward(x, signs, scale, m);
    BackwardSub(y, f, signs, scale, m);
    BackwardNorm(Sub(y, f), signs, scale, m);
  }
}
