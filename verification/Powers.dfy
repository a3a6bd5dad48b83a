/** Powers of two and single bits of natural numbers: `>> k` is division by 2^k,
    `<< k` multiplication, `& (2^k - 1)` the remainder, `|` is `Or`. */
module Powers {

  function Pow2(m: nat): (n: nat)
    ensures n >= 1
  {
    if m == 0 then 1 else 2 * Pow2(m - 1)
  }

  function BitAt(v: nat, t: nat): nat {
    if t == 0 then v % 2 else BitAt(v / 2, t - 1)
  }

  function Shr(v: nat, k: nat): nat {
    if k == 0 then v else Shr(v / 2, k - 1)
  }

  function Shl(v: nat, k: nat): nat {
    v * Pow2(k)
  }

  function Low(v: nat, k: nat): nat {
    v % Pow2(k)
  }

  function Or(a: nat, b: nat): nat
    decreases a + b
  {
    if a == 0 && b == 0 then 0
    else 2 * Or(a / 2, b / 2) + (if a % 2 == 1 || b % 2 == 1 then 1 else 0)
  }

  lemma {:induction false} BitIsBit(v: nat, t: nat)
    ensures BitAt(v, t) == 0 || BitAt(v, t) == 1
  {
    if t > 0 { BitIsBit(v / 2, t - 1); }
  }

  lemma {:induction false} OrBit(a: nat, b: nat, t: nat)
    ensures BitAt(Or(a, b), t) == if BitAt(a, t) == 1 || BitAt(b, t) == 1 then 1 else 0
    decreases t
  {
    if a == 0 && b == 0 {
      ZeroBit(t);
    } else {
      var low := if a % 2 == 1 || b % 2 == 1 then 1 else 0;
      assert Or(a, b) / 2 == Or(a / 2, b / 2) && Or(a, b) % 2 == low;
      if t > 0 { OrBit(a / 2, b / 2, t - 1); }
    }
  }

  lemma {:induction false} ZeroBit(t: nat)
    ensures BitAt(0, t) == 0
  {
    if t > 0 { ZeroBit(t - 1); }
  }

  lemma {:induction false} ShrBit(v: nat, k: nat, t: nat)
    ensures BitAt(Shr(v, k), t) == BitAt(v, k + t)
  {
    if k > 0 { ShrBit(v / 2, k - 1, t); }
  }

  lemma {:induction false} ShlBit(v: nat, k: nat, t: nat)
    ensures BitAt(Shl(v, k), t) == if t < k then 0 else BitAt(v, t - k)
    decreases t
  {
    if k > 0 {
      ShlHalf(v, k);
      if t > 0 { ShlBit(v, k - 1, t - 1); }
    }
  }

  lemma ShlHalf(v: nat, k: nat)
    requires k > 0
    ensures Shl(v, k) == 2 * Shl(v, k - 1) && Shl(v, k) % 2 == 0 && Shl(v, k) / 2 == Shl(v, k - 1)
  {
    assert v * (2 * Pow2(k - 1)) == 2 * (v * Pow2(k - 1));
  }

  lemma DivMod(a: nat, b: nat, q: nat, r: nat)
    requires r < b && a == q * b + r
    ensures a / b == q && a % b == r
  {
    var d := q - a / b;
    assert d * b == a % b - r by { assert a == a / b * b + a % b; }
    MulBound(d, b);
  }

  lemma MulBound(d: int, b: nat)
    ensures d >= 1 ==> d * b >= b
    ensures d <= -1 ==> d * b <= 0 - b
  {
    if d >= 1 { assert (d - 1) * b >= 0; }
    if d <= -1 { assert (d + 1) * b <= 0; }
  }

  lemma LowHalf(v: nat, k: nat)
    requires k > 0
    ensures Low(v, k) % 2 == v % 2 && Low(v, k) / 2 == Low(v / 2, k - 1)
  {
    var p := Pow2(k - 1);
    var q, r := v / 2 / p, v / 2 % p;
    assert v / 2 == q * p + r;
    assert v == q * (2 * p) + (2 * r + v % 2) by { assert q * (2 * p) == 2 * (q * p); }
    DivMod(v, 2 * p, q, 2 * r + v % 2);
  }

  lemma {:induction false} LowBit(v: nat, k: nat, t: nat)
    ensures BitAt(Low(v, k), t) == if t < k then BitAt(v, t) else 0
    decreases t
  {
    if k == 0 {
      assert Low(v, 0) == 0;
      ZeroBit(t);
    } else {
      LowHalf(v, k);
      if t > 0 { LowBit(v / 2, k - 1, t - 1); }
    }
  }

  lemma {:induction false} HighBit(v: nat, k: nat, t: nat)
    requires v < Pow2(k) && k <= t
    ensures BitAt(v, t) == 0
    decreases t
  {
    if k == 0 { ZeroBit(t); } else { HighBit(v / 2, k - 1, t - 1); }
  }

  /** Numbers below 2^k are equal when their k bits are. */
  lemma {:induction false} SameBits(a: nat, b: nat, k: nat)
    requires a < Pow2(k) && b < Pow2(k) && forall t :: 0 <= t < k ==> BitAt(a, t) == BitAt(b, t)
    ensures a == b
  {
    if k > 0 {
      assert BitAt(a, 0) == BitAt(b, 0);
      forall t | 0 <= t < k - 1 ensures BitAt(a / 2, t) == BitAt(b / 2, t) {
        assert BitAt(a, t + 1) == BitAt(b, t + 1);
      }
      SameBits(a / 2, b / 2, k - 1);
    }
  }

  lemma {:induction false} PowMonotone(a: nat, b: nat)
    requires a <= b
    ensures Pow2(a) <= Pow2(b)
  {
    if a < b { PowMonotone(a, b - 1); }
  }

  lemma MulMonotone(a: nat, b: nat, c: nat)
    requires a <= b
    ensures a * c <= b * c
  {
  }

  lemma MulNext(a: nat, c: nat)
    ensures (a + 1) * c == a * c + c
  {
  }

  lemma MulCancel(a: nat, b: nat, c: nat)
    ensures a * c < b * c ==> a < b
  {
    if a >= b { MulMonotone(b, a, c); }
  }

  /** Digit b after the digits a, in base n. */
  function Join(a: nat, n: nat, b: nat): nat { a * n + b }
}
