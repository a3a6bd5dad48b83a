/** The two codec layouts of kvserve_v1/compression/compression_manager.py.  A buffer
    is a flat list of head vectors; [.., T tokens, H heads] and [.., H heads, T tokens]
    are exchanged by permuting the list. */
module LayerLayout {
  import opened Powers

  lemma JoinDigits(a: nat, n: nat, b: nat)
    requires b < n
    ensures Join(a, n, b) / n == a && Join(a, n, b) % n == b
  {
    DivMod(a * n + b, n, a, b);
  }

  lemma SplitDigits(i: nat, n: nat)
    requires n > 0
    ensures i == Join(i / n, n, i % n) && i % n < n
  {
  }

  lemma JoinLess(a: nat, n: nat, b: nat, m: nat)
    requires b < n
    ensures Join(a, n, b) < m * n <==> a < m
  {
    if a < m {
      assert (a + 1) * n <= m * n && (a + 1) * n == a * n + n;
    } else {
      assert a * n >= m * n;
    }
  }

  lemma JoinShift(a: nat, n: nat, b: nat, k: nat)
    ensures Join(a + k, n, b) == Join(a, n, b) + k * n
    ensures Join(a, n, b + k) == Join(a, n, b) + k
  {
    assert (a + k) * n == a * n + k * n;
  }

  /** Where entry i of a [.., H, T] buffer sits in the [.., T, H] buffer. */
  function From(i: nat, T: nat, H: nat): nat
    requires T > 0 && H > 0
  {
    Join(Join(i / T / H, T, i % T), H, i / T % H)
  }

  lemma FromOf(q: nat, h: nat, t: nat, T: nat, H: nat)
    requires h < H && t < T
    ensures From(Join(Join(q, H, h), T, t), T, H) == Join(Join(q, T, t), H, h)
  {
    hide Join;
    JoinDigits(Join(q, H, h), T, t);
    JoinDigits(q, H, h);
  }

  /** The slab, head and token of entry i of a [.., H, T] buffer. */
  lemma Digits(i: nat, T: nat, H: nat) returns (q: nat, h: nat, t: nat)
    requires T > 0 && H > 0
    ensures i == Join(Join(q, H, h), T, t) && h < H && t < T
  {
    hide Join;
    SplitDigits(i, T);
    SplitDigits(i / T, H);
    q, h, t := i / T / H, i / T % H, i % T;
  }

  /** Exchanging the axes twice is the identity on indexes. */
  lemma FromInverse(i: nat, T: nat, H: nat)
    requires T > 0 && H > 0
    ensures From(From(i, T, H), H, T) == i
  {
    hide From, Join;
    var q, h, t := Digits(i, T, H);
    FromOf(q, h, t, T, H);
    FromOf(q, t, h, H, T);
  }

  lemma Regroup(q: nat, T: nat, H: nat)
    ensures q * T * H == q * (T * H) && q * (T * H) == q * (H * T)
  {
  }

  /** The entries of the first k slabs are those below k * (T * H). */
  lemma InSlabs(q: nat, h: nat, t: nat, T: nat, H: nat, k: nat)
    requires h < H && t < T
    ensures Join(Join(q, H, h), T, t) < k * (T * H) <==> q < k
  {
    hide Join;
    Regroup(k, H, T);
    JoinLess(Join(q, H, h), T, t, k * H);
    JoinLess(q, H, h, k);
  }

  lemma FromInRange(i: nat, T: nat, H: nat, slabs: nat)
    requires T > 0 && H > 0 && i < slabs * (T * H)
    ensures From(i, T, H) < slabs * (T * H)
  {
    hide From, Join;
    var q, h, t := Digits(i, T, H);
    FromOf(q, h, t, T, H);
    InSlabs(q, h, t, T, H, slabs);
    InSlabs(q, t, h, H, T, slabs);
    Regroup(slabs, T, H);
  }

  /** Moving by k slabs adds k to the slab digit. */
  lemma NextSlabs(q: nat, h: nat, t: nat, T: nat, H: nat, k: nat)
    ensures Join(Join(q + k, H, h), T, t) == Join(Join(q, H, h), T, t) + k * (T * H)
  {
    hide Join;
    JoinShift(q, H, h, k);
    JoinShift(Join(q, H, h), T, t, k * H);
    Regroup(k, H, T);
  }

  /** Moving by whole slabs commutes with the exchange. */
  lemma FromShift(i: nat, T: nat, H: nat, slabs: nat)
    requires T > 0 && H > 0
    ensures From(i + slabs * (T * H), T, H) == From(i, T, H) + slabs * (T * H)
  {
    hide From, Join;
    var q, h, t := Digits(i, T, H);
    FromOf(q, h, t, T, H);
    FromOf(q + slabs, h, t, T, H);
    NextSlabs(q, h, t, T, H, slabs);
    NextSlabs(q, t, h, H, T, slabs);
    Regroup(slabs, T, H);
  }

  ghost predicate Slabs<V>(x: seq<V>, T: nat, H: nat) {
    T > 0 && H > 0 && exists k: nat :: |x| == k * (T * H)
  }

  /** The permuted buffer of a native one; with T and H exchanged, its inverse. */
  ghost function Swap<V>(x: seq<V>, T: nat, H: nat): (r: seq<V>)
    requires Slabs(x, T, H)
    ensures |r| == |x|
  {
    seq(|x|, i requires 0 <= i < |x| => Taken(x, T, H, i))
  }

  ghost function Taken<V>(x: seq<V>, T: nat, H: nat, i: nat): V
    requires Slabs(x, T, H) && i < |x|
  {
    var k: nat :| |x| == k * (T * H);
    FromInRange(i, T, H, k);
    x[From(i, T, H)]
  }

  lemma TakenIs<V>(x: seq<V>, T: nat, H: nat, i: nat)
    requires Slabs(x, T, H) && i < |x|
    ensures From(i, T, H) < |x| && Taken(x, T, H, i) == x[From(i, T, H)]
  {
    var k: nat :| |x| == k * (T * H);
    FromInRange(i, T, H, k);
  }

  lemma SlabsSwapped<V>(x: seq<V>, T: nat, H: nat)
    requires Slabs(x, T, H)
    ensures Slabs(Swap(x, T, H), H, T)
  {
    var k: nat :| |x| == k * (T * H);
    assert |Swap(x, T, H)| == k * (H * T);
  }

  lemma SwapInverse<V>(x: seq<V>, T: nat, H: nat)
    requires Slabs(x, T, H)
    ensures Slabs(Swap(x, T, H), H, T) && Swap(Swap(x, T, H), H, T) == x
  {
    hide From, Taken, Slabs;
    SlabsSwapped(x, T, H);
    var y := Swap(x, T, H);
    SlabsPositive(x, T, H);
    forall i | 0 <= i < |x| ensures Swap(y, H, T)[i] == x[i] {
      TakenIs(y, H, T, i);
      var j := From(i, H, T);
      TakenIs(x, T, H, j);
      FromInverse(i, H, T);
    }
  }

  lemma SlabsPositive<V>(x: seq<V>, T: nat, H: nat)
    requires Slabs(x, T, H)
    ensures T > 0 && H > 0
  {
  }

  lemma SlabsAppend<V>(x: seq<V>, y: seq<V>, T: nat, H: nat)
    requires Slabs(x, T, H) && Slabs(y, T, H)
    ensures Slabs(x + y, T, H)
  {
    var k: nat :| |x| == k * (T * H);
    var l: nat :| |y| == l * (T * H);
    assert |x + y| == (k + l) * (T * H);
  }

  /** One bulk permutation of concatenated layers permutes each of them. */
  lemma SwapAppend<V>(x: seq<V>, y: seq<V>, T: nat, H: nat)
    requires Slabs(x, T, H) && Slabs(y, T, H)
    ensures Slabs(x + y, T, H) && Swap(x + y, T, H) == Swap(x, T, H) + Swap(y, T, H)
  {
    SlabsAppend(x, y, T, H);
    var k: nat :| |x| == k * (T * H);
    hide Taken, Slabs;
    var both := Swap(x, T, H) + Swap(y, T, H);
    SlabsPositive(x, T, H);
    hide From;
    forall i | 0 <= i < |x + y| ensures Swap(x + y, T, H)[i] == both[i] {
      TakenIs(x + y, T, H, i);
      if i < |x| {
        TakenIs(x, T, H, i);
      } else {
        TakenIs(y, T, H, i - |x|);
        FromShift(i - |x|, T, H, k);
      }
    }
  }

  /** Entry by entry: the permuted buffer holds token t of head h of a slab where the
      native one holds head h of token t. */
  lemma SwapAt<V>(x: seq<V>, T: nat, H: nat, k: nat, q: nat, h: nat, t: nat)
    requires Slabs(x, T, H) && |x| == k * (T * H) && q < k && h < H && t < T
    ensures Join(Join(q, H, h), T, t) < |x| && Join(Join(q, T, t), H, h) < |x|
    ensures Swap(x, T, H)[Join(Join(q, H, h), T, t)] == x[Join(Join(q, T, t), H, h)]
  {
    hide From, Taken, Join, Slabs;
    InSlabs(q, h, t, T, H, k);
    InSlabs(q, t, h, H, T, k);
    Regroup(k, T, H);
    FromOf(q, h, t, T, H);
    TakenIs(x, T, H, Join(Join(q, H, h), T, t));
  }
}
