/** Heterogeneous tensor-parallel copy plans
    (kvsfuse-vllm0.30.0/mooncake/mooncake_connector.py) and the rank pairing they rest
    on (kvsfuse-vllm0.30.0/mooncake/session_ipc.py).  A failing assertion is None. */
module TransferPlan {
  import opened Numbers
  import opened Wrappers
  import opened Powers

  /** Copy `len` bytes from `src` in the producer's block to `dst` in the consumer's. */
  datatype Plan = Plan(send: bool, src: nat, dst: nat, len: nat)

  // ----- Rank pairing -----

  function TpRatio(local: nat, remote: nat): Option<int>
    requires local > 0 && remote > 0
  {
    if local >= remote then (if local % remote == 0 then Some(local / remote) else None)
    else (if remote % local == 0 then Some(-(remote / local)) else None)
  }

  function TargetRanks(rank: nat, size: nat, remote: nat): seq<nat>
    requires size > 0 && remote > 0
  {
    if size >= remote then
      QuotientPositive(size, remote);
      [rank / (size / remote)]
    else
      var ratio := remote / size;
      seq(ratio, i requires 0 <= i < ratio => rank * ratio + i)
  }

  lemma QuotientPositive(a: nat, b: nat)
    requires a >= b > 0
    ensures a / b > 0
  {
  }

  lemma ExactQuotient(a: nat, b: nat, k: nat)
    requires b > 0 && a == k * b
    ensures a / b == k && a % b == 0
  {
    DivMod(a, b, k, 0);
  }

  /** Which ranks of the larger side pair with rank c of the smaller one. */
  lemma SmallTargets(c: nat, size: nat, ratio: nat, p: nat)
    requires size > 0 && ratio > 1
    ensures p in TargetRanks(c, size, ratio * size) <==> p / ratio == c
  {
    ExactQuotient(ratio * size, size, ratio);
    assert ratio * size > size by { assert (ratio - 1) * size > 0; }
    var targets := TargetRanks(c, size, ratio * size);
    assert |targets| == ratio;
    if p / ratio == c {
      assert p == c * ratio + p % ratio;
      assert targets[p % ratio] == p;
    }
    if p in targets {
      var i :| 0 <= i < ratio && p == c * ratio + i;
      DivMod(p, ratio, c, i);
    }
  }

  lemma LargeTargets(p: nat, size: nat, ratio: nat)
    requires size > 0 && ratio > 0
    ensures ratio * size > 0 && TargetRanks(p, ratio * size, size) == [p / ratio]
  {
    ExactQuotient(ratio * size, size, ratio);
    assert ratio * size >= size by { assert (ratio - 1) * size >= 0; }
  }

  lemma LocalLarger(p: nat, c: nat, ratio: nat, remote: nat)
    requires remote > 0 && ratio > 0 && p < ratio * remote && c < remote
    ensures ratio * remote > 0
    ensures c in TargetRanks(p, ratio * remote, remote) <==> p in TargetRanks(c, remote, ratio * remote)
    ensures forall r :: r in TargetRanks(p, ratio * remote, remote) ==> r < remote
  {
    hide TargetRanks;
    LargeTargets(p, remote, ratio);
    QuotientLess(p, ratio, remote);
    if ratio > 1 {
      SmallTargets(c, remote, ratio, p);
    } else {
      assert 1 * remote == remote;
      LargeTargets(c, remote, 1);
      assert p / 1 == p && c / 1 == c;
    }
  }

  lemma LocalSmaller(p: nat, c: nat, ratio: nat, local: nat)
    requires local > 0 && ratio > 1 && c < ratio * local && p < local
    ensures c in TargetRanks(p, local, ratio * local) <==> p in TargetRanks(c, ratio * local, local)
    ensures forall r :: r in TargetRanks(p, local, ratio * local) ==> r < ratio * local
  {
    hide TargetRanks;
    LargeTargets(c, local, ratio);
    SmallTargets(p, local, ratio, c);
    forall r | r in TargetRanks(p, local, ratio * local) ensures r < ratio * local {
      SmallTargets(p, local, ratio, r);
      RankLess(r, ratio, p, local);
    }
  }

  lemma Ratio(a: nat, b: nat)
    requires a >= b > 0 && a % b == 0
    ensures a == a / b * b && a / b > 0 && (a > b ==> a / b > 1)
  {
    if a / b == 1 { assert a == b; }
    QuotientPositive(a, b);
  }

  lemma DividesSmaller(a: nat, b: nat)
    requires a >= b > 0 && (a % b == 0 || b % a == 0)
    ensures a % b == 0
  {
    if b < a { DivMod(b, a, 0, b); } else { DivMod(a, b, 1, 0); }
  }

  /** Pairing is symmetric and stays in range: c is a target of p exactly when p is one of c. */
  lemma PairingSymmetric(p: nat, c: nat, local: nat, remote: nat)
    requires local > 0 && remote > 0 && (local % remote == 0 || remote % local == 0) && p < local && c < remote
    ensures c in TargetRanks(p, local, remote) <==> p in TargetRanks(c, remote, local)
    ensures forall r :: r in TargetRanks(p, local, remote) ==> r < remote
  {
    hide TargetRanks;
    if local >= remote {
      DividesSmaller(local, remote);
      Ratio(local, remote);
      LocalLarger(p, c, local / remote, remote);
    } else {
      DividesSmaller(remote, local);
      Ratio(remote, local);
      LocalSmaller(p, c, remote / local, local);
    }
  }

  lemma QuotientLess(p: nat, ratio: nat, n: nat)
    requires ratio > 0 && p < ratio * n
    ensures p / ratio < n
  {
    var q := p / ratio;
    assert q * ratio <= p;
    MulCancel(q, n, ratio);
  }

  lemma RankLess(r: nat, ratio: nat, p: nat, n: nat)
    requires ratio > 0 && r / ratio == p && p < n
    ensures r < ratio * n
  {
    assert r == p * ratio + r % ratio;
    MulMonotone(p + 1, n, ratio);
    assert (p + 1) * ratio == p * ratio + ratio;
  }

  // ----- The plan -----

  function SenderPlan(rank: nat, size: nat, remoteRank: nat, remoteSize: nat, localLen: nat, remoteLen: nat,
                      replicated: bool, heads: Option<nat>): Option<Plan>
    requires size > 0 && remoteSize > 0 && (heads.Some? ==> heads.value > 0)
  {
    match TpRatio(size, remoteSize)
    case None => None
    case Some(ratio) => Some(RatioPlan(ratio, rank, size, remoteRank, remoteSize, localLen, remoteLen, replicated, heads))
  }

  function RatioPlan(ratio: int, rank: nat, size: nat, remoteRank: nat, remoteSize: nat, localLen: nat, remoteLen: nat,
                     replicated: bool, heads: Option<nat>): Plan
    requires size > 0 && remoteSize > 0 && (heads.Some? ==> heads.value > 0) && ratio != 0
  {
    if ratio == 1 then Plan(true, 0, 0, localLen)
    else if heads.Some? && replicated != (remoteSize > heads.value) then
      HeadPlan(rank, size, remoteRank, remoteSize, localLen, heads.value)
    else if ratio > 0 then
      if replicated then Plan(rank % ratio == 0, 0, 0, localLen)
      else Plan(true, 0, Times(rank % ratio, localLen), localLen)
    else if replicated then Plan(true, 0, 0, localLen)
    else Plan(true, Times(remoteRank % (-ratio), remoteLen), 0, remoteLen)
  }

  function Times(a: nat, b: nat): nat { a * b }

  function Over(a: nat, b: nat): nat { if a > b then a - b else 0 }

  function HeadPlan(rank: nat, size: nat, remoteRank: nat, remoteSize: nat, localLen: nat, heads: nat): Plan
    requires size > 0 && remoteSize > 0 && heads > 0
  {
    var head, remoteHead := HeadStart(rank, size, heads), HeadStart(remoteRank, remoteSize, heads);
    var bytes := localLen / HeadCount(size, heads);
    Plan(rank % Replicas(size, heads) == 0, Times(Over(remoteHead, head), bytes), Times(Over(head, remoteHead), bytes), bytes)
  }

  // ----- What each rank holds -----

  /** The first KV head of a rank. */
  function HeadStart(rank: nat, size: nat, heads: nat): nat
    requires size > 0
  {
    Times(rank, heads) / size
  }

  function HeadCount(size: nat, heads: nat): (n: nat)
    requires size > 0
    ensures n > 0
  {
    Most(heads / size, 1)
  }

  /** How many ranks hold each head. */
  function Replicas(size: nat, heads: nat): (n: nat)
    requires heads > 0
    ensures n > 0
  {
    Most(size / heads, 1)
  }

  /** Ranks share out the heads evenly, or each head is replicated evenly. */
  predicate Even(size: nat, heads: nat) {
    size > 0 && heads > 0 && (heads % size == 0 || size % heads == 0)
  }

  lemma ShardedHeads(rank: nat, size: nat, k: nat)
    requires size > 0 && k > 0
    ensures HeadStart(rank, size, k * size) == rank * k && HeadCount(size, k * size) == k
  {
    assert rank * (k * size) == (rank * k) * size;
    ExactQuotient(rank * (k * size), size, rank * k);
    ExactQuotient(k * size, size, k);
  }

  lemma ReplicatedHeads(rank: nat, heads: nat, k: nat)
    requires heads > 0 && k > 1
    ensures k * heads > heads && HeadStart(rank, k * heads, heads) == rank / k
    ensures HeadCount(k * heads, heads) == 1 && Replicas(k * heads, heads) == k
  {
    assert (k - 1) * heads > 0;
    SharedHead(rank, heads, k);
    DivMod(heads, k * heads, 0, heads);
    ExactQuotient(k * heads, heads, k);
  }

  lemma SharedHead(rank: nat, heads: nat, k: nat)
    requires heads > 0 && k > 0 && k * heads > 0
    ensures rank * heads / (k * heads) == rank / k
  {
    var q, r := rank / k, rank % k;
    Spread(rank, heads, k, q, r);
    MulMonotone(r + 1, k, heads);
    assert (r + 1) * heads == r * heads + heads;
    DivMod(rank * heads, k * heads, q, r * heads);
  }

  lemma Spread(rank: nat, heads: nat, k: nat, q: nat, r: nat)
    requires rank == q * k + r
    ensures rank * heads == q * (k * heads) + r * heads
  {
    assert (q * k + r) * heads == q * k * heads + r * heads;
  }

  /** One paired copy: the block it writes, from the same global bytes, inside both blocks. */
  ghost predicate Faithful(plan: Plan, rank: nat, size: nat, remoteRank: nat, remoteSize: nat, heads: nat, unit: nat)
    requires size > 0 && remoteSize > 0
  {
    && Times(HeadStart(rank, size, heads), unit) + plan.src == Times(HeadStart(remoteRank, remoteSize, heads), unit) + plan.dst
    && plan.src + plan.len <= Times(HeadCount(size, heads), unit)
    && plan.dst + plan.len <= Times(HeadCount(remoteSize, heads), unit)
  }

  predicate Writes(plan: Plan, b: nat) { plan.send && plan.dst <= b < plan.dst + plan.len }

  // ----- Arithmetic -----

  lemma NestedQuotient(p: nat, a: nat, h: nat)
    requires a > 0 && h > 0
    ensures a * h > 0 && p / (a * h) == p / a / h
  {
    var q, r := p / a, p % a;
    var k, t := q / h, q % h;
    assert p == q * a + r && q == k * h + t;
    assert p == k * (a * h) + (t * a + r) by { assert (k * h + t) * a == k * (a * h) + t * a; }
    MulMonotone(t + 1, h, a);
    assert (t + 1) * a == t * a + a;
    assert h * a == a * h;
    DivMod(p, a * h, k, t * a + r);
  }

  function Slot(b: nat, u: nat): nat
    requires u > 0
  {
    b / u
  }

  /** Byte b lies in slot i of slots of length u. */
  lemma InSlot(b: nat, u: nat, i: nat)
    requires u > 0
    ensures Times(i, u) <= b < Times(i, u) + u <==> i == Slot(b, u)
  {
    if Times(i, u) <= b < Times(i, u) + u { DivMod(b, u, i, b - i * u); }
    assert b == b / u * u + b % u;
  }

  lemma SlotFits(i: nat, n: nat, u: nat)
    requires i < n
    ensures Times(i, u) + u <= Times(n, u)
  {
    MulMonotone(i + 1, n, u);
    assert (i + 1) * u == i * u + u;
  }

  lemma TimesAdd(a: nat, b: nat, u: nat)
    ensures Times(a + b, u) == Times(a, u) + Times(b, u)
    ensures Times(a, b) == Times(b, a) && Times(a, Times(b, u)) == Times(Times(a, b), u)
  {
    assert (a + b) * u == a * u + b * u;
  }

  lemma TimesUnit(u: nat)
    ensures Times(0, u) == 0 && Times(1, u) == u && Times(u, 0) == 0
  {
  }

  lemma TimesQuotient(n: nat, u: nat)
    requires n > 0
    ensures Times(n, u) / n == u
  {
    assert n * u == u * n;
    ExactQuotient(n * u, n, u);
  }

  /** A rank from its group and its place in the group. */
  lemma Place(p: nat, r: nat)
    requires r > 0
    ensures p == Times(p / r, r) + p % r && p % r < r
  {
  }

  /** The plan of one pair when the head count is known. */
  function PlanFor(p: nat, local: nat, c: nat, remote: nat, heads: nat, unit: nat): Option<Plan>
    requires local > 0 && remote > 0 && heads > 0
  {
    SenderPlan(p, local, c, remote, Times(HeadCount(local, heads), unit), Times(HeadCount(remote, heads), unit), local > heads, Some(heads))
  }

  /** The plan copies the same global bytes, inside both blocks; and it writes byte b
      exactly when p is the sender s. */
  ghost predicate Right(plan: Option<Plan>, p: nat, local: nat, c: nat, remote: nat, heads: nat, unit: nat, b: nat, s: nat)
    requires local > 0 && remote > 0
  {
    && plan.Some?
    && (plan.value.send ==> Faithful(plan.value, p, local, c, remote, heads, unit))
    && (Writes(plan.value, b) <==> p == s)
  }

  // ----- Facts about each kind of pairing -----

  lemma SizesLarger(r: nat, n: nat, m: nat)
    requires n > 0 && r > 0 && m == Times(r, n)
    ensures m >= n && (r > 1 ==> m > n) && TpRatio(m, n) == Some(r)
  {
    ExactQuotient(m, n, r);
    MulMonotone(1, r, n);
    if r > 1 { MulMonotone(2, r, n); }
  }

  lemma SizesSmaller(r: nat, n: nat, m: nat)
    requires n > 0 && r > 1 && m == Times(r, n)
    ensures m > n && TpRatio(n, m) == Some(0 - r)
  {
    ExactQuotient(m, n, r);
    MulMonotone(2, r, n);
  }

  lemma Sharded(rank: nat, size: nat, k: nat, heads: nat)
    requires size > 0 && k > 0 && heads == Times(k, size)
    ensures heads >= size && HeadStart(rank, size, heads) == Times(rank, k) && HeadCount(size, heads) == k
    ensures Replicas(size, heads) == 1
  {
    SizesLarger(k, size, heads);
    ShardedHeads(rank, size, k);
    OneReplica(size, heads);
  }

  lemma Replicated(rank: nat, size: nat, k: nat, heads: nat)
    requires heads > 0 && k > 1 && size == Times(k, heads)
    ensures size > heads && HeadStart(rank, size, heads) == rank / k && HeadCount(size, heads) == 1
    ensures Replicas(size, heads) == k
  {
    ReplicatedHeads(rank, heads, k);
  }

  lemma Compose(a: nat, h: nat, n: nat)
    requires a > 0 && h > 0
    ensures Times(a, Times(h, n)) == Times(Times(a, h), n) && Times(a, h) > 0 && (a > 1 || h > 1 ==> Times(a, h) > 1)
  {
    assert a * (h * n) == (a * h) * n;
    MulMonotone(1, h, a);
    MulMonotone(1, a, h);
  }

  lemma Nested(p: nat, a: nat, h: nat)
    requires a > 0 && h > 0
    ensures Times(a, h) > 0 && p / Times(a, h) == p / a / h
  {
    NestedQuotient(p, a, h);
  }

  lemma OneReplica(size: nat, heads: nat)
    requires 0 < size <= heads
    ensures Replicas(size, heads) == 1
  {
    if size < heads { DivMod(size, heads, 0, size); } else { ExactQuotient(size, heads, 1); }
  }

  // ----- The cases -----

  lemma SameSize(p: nat, n: nat, heads: nat, unit: nat, b: nat)
    requires n > 0 && heads > 0 && b < Times(HeadCount(n, heads), unit)
    ensures Right(PlanFor(p, n, p, n, heads, unit), p, n, p, n, heads, unit, b, p)
  {
    ExactQuotient(n, n, 1);
  }

  /** Replicated producers, sharded consumers. */
  lemma ReplicatedToSharded(p: nat, local: nat, c: nat, remote: nat, heads: nat, h: nat, a: nat, unit: nat, b: nat, k: nat)
    requires remote > 0 && h > 0 && a > 1 && unit > 0 && heads == Times(h, remote) && local == Times(a, heads)
    requires b < Times(h, unit) && Times(a, h) > 0 && p / Times(a, h) == c && k == Slot(b, unit)
    ensures heads > 0 && local > 0
    ensures Right(PlanFor(p, local, c, remote, heads, unit), p, local, c, remote, heads, unit, b, Times(Times(c, h) + k, a))
  {
    hide Times, HeadStart, HeadCount, Replicas, TpRatio;
    Sharded(c, remote, h, heads);
    Replicated(p, local, a, heads);
    Compose(a, h, remote);
    SizesLarger(Times(a, h), remote, local);
    Nested(p, a, h);
    var head := p / a;
    Place(head, h);
    var j := head % h;
    TimesUnit(unit);
    assert Times(1, unit) / 1 == unit;
    assert PlanFor(p, local, c, remote, heads, unit) == Some(Plan(p % a == 0, 0, Times(j, unit), unit));
    SlotFits(j, h, unit);
    TimesAdd(Times(c, h), j, unit);
    InSlot(b, unit, j);
    OnlyMultiple(p, a, Times(c, h) + k);
  }

  lemma OnlyMultiple(p: nat, a: nat, k: nat)
    requires a > 0
    ensures p == Times(k, a) <==> p % a == 0 && p / a == k
  {
    Place(p, a);
    if p == k * a { DivMod(p, a, k, 0); }
  }

  /** Sharded producers, replicated consumers. */
  lemma ShardedToReplicated(p: nat, local: nat, c: nat, remote: nat, heads: nat, h: nat, a: nat, unit: nat, b: nat)
    requires local > 0 && h > 0 && a > 1 && unit > 0 && heads == Times(h, local) && remote == Times(a, heads)
    requires b < unit && Times(a, h) > 0 && p == c / Times(a, h)
    ensures heads > 0 && remote > 0
    ensures Right(PlanFor(p, local, c, remote, heads, unit), p, local, c, remote, heads, unit, b, p)
  {
    hide Times, HeadStart, HeadCount, Replicas, TpRatio;
    Sharded(p, local, h, heads);
    Replicated(c, remote, a, heads);
    Compose(a, h, local);
    SizesSmaller(Times(a, h), local, remote);
    Nested(c, a, h);
    var remoteHead := c / a;
    Place(remoteHead, h);
    var j := remoteHead % h;
    TimesUnit(unit);
    TimesQuotient(h, unit);
    assert p % 1 == 0;
    assert PlanFor(p, local, c, remote, heads, unit) == Some(Plan(true, Times(j, unit), 0, unit));
    SlotFits(j, h, unit);
    TimesAdd(Times(p, h), j, unit);
  }

  /** Both replicated, more producers. */
  lemma ReplicatedLarger(p: nat, local: nat, c: nat, remote: nat, heads: nat, a: nat, r: nat, unit: nat, b: nat)
    requires heads > 0 && a > 1 && r > 1 && unit > 0 && remote == Times(a, heads) && local == Times(r, remote)
    requires b < unit && p / r == c
    ensures remote > 0 && local > 0
    ensures Right(PlanFor(p, local, c, remote, heads, unit), p, local, c, remote, heads, unit, b, Times(c, r))
  {
    hide Times, HeadStart, HeadCount, Replicas, TpRatio;
    Replicated(c, remote, a, heads);
    Compose(r, a, heads);
    Replicated(p, local, Times(r, a), heads);
    SizesLarger(r, remote, local);
    Nested(p, r, a);
    TimesUnit(unit);
    OnlyMultiple(p, r, c);
    assert PlanFor(p, local, c, remote, heads, unit) == Some(Plan(p % r == 0, 0, 0, unit));
  }

  /** Both replicated, more consumers. */
  lemma ReplicatedSmaller(p: nat, local: nat, c: nat, remote: nat, heads: nat, a: nat, r: nat, unit: nat, b: nat)
    requires heads > 0 && a > 1 && r > 1 && unit > 0 && local == Times(a, heads) && remote == Times(r, local)
    requires b < unit && p == c / r
    ensures local > 0 && remote > 0
    ensures Right(PlanFor(p, local, c, remote, heads, unit), p, local, c, remote, heads, unit, b, p)
  {
    hide Times, HeadStart, HeadCount, Replicas, TpRatio;
    Replicated(p, local, a, heads);
    Compose(r, a, heads);
    Replicated(c, remote, Times(r, a), heads);
    SizesSmaller(r, local, remote);
    Nested(c, r, a);
    TimesUnit(unit);
    assert PlanFor(p, local, c, remote, heads, unit) == Some(Plan(true, 0, 0, unit));
  }

  /** Both sharded, more producers. */
  lemma ShardedLarger(p: nat, local: nat, c: nat, remote: nat, heads: nat, h: nat, r: nat, unit: nat, b: nat, k: nat)
    requires remote > 0 && h > 0 && r > 1 && unit > 0 && local == Times(r, remote) && heads == Times(h, local)
    requires p / r == c && b < Times(Times(h, r), unit) && Times(h, unit) > 0 && k == Slot(b, Times(h, unit))
    ensures local > 0 && heads > 0
    ensures Right(PlanFor(p, local, c, remote, heads, unit), p, local, c, remote, heads, unit, b, Times(c, r) + k)
  {
    hide Times, HeadStart, HeadCount, Replicas, TpRatio;
    SizesLarger(r, remote, local);
    Sharded(p, local, h, heads);
    Compose(h, r, remote);
    Sharded(c, remote, Times(h, r), heads);
    var len := Times(h, unit);
    Place(p, r);
    var j := p % r;
    assert PlanFor(p, local, c, remote, heads, unit) == Some(Plan(true, 0, Times(j, len), len));
    InSlot(b, len, j);
    SlotFits(j, r, len);
    Regrouped(r, h, unit);
    TimesAdd(Times(c, r), j, len);
    Reorder(c, h, r, unit);
    TimesAdd(p, h, unit);
  }

  /** Both sharded, more consumers. */
  lemma ShardedSmaller(p: nat, local: nat, c: nat, remote: nat, heads: nat, g: nat, r: nat, unit: nat, b: nat)
    requires local > 0 && g > 0 && r > 1 && unit > 0 && remote == Times(r, local) && heads == Times(g, remote)
    requires b < Times(g, unit) && p == c / r
    ensures remote > 0 && heads > 0
    ensures Right(PlanFor(p, local, c, remote, heads, unit), p, local, c, remote, heads, unit, b, p)
  {
    hide Times, HeadStart, HeadCount, Replicas, TpRatio;
    SizesSmaller(r, local, remote);
    Compose(g, r, local);
    Sharded(p, local, Times(g, r), heads);
    Sharded(c, remote, g, heads);
    var len := Times(g, unit);
    Place(c, r);
    var j := c % r;
    assert PlanFor(p, local, c, remote, heads, unit) == Some(Plan(true, Times(j, len), 0, len));
    SlotFits(j, r, len);
    Regrouped(r, g, unit);
    TimesAdd(Times(p, r), j, len);
    Reorder(p, g, r, unit);
    TimesAdd(c, g, unit);
  }

  lemma Regrouped(r: nat, h: nat, unit: nat)
    ensures Times(r, Times(h, unit)) == Times(Times(h, r), unit)
  {
    TimesAdd(r, h, unit);
    TimesAdd(h, r, unit);
  }

  lemma Reorder(c: nat, h: nat, r: nat, unit: nat)
    ensures Times(Times(c, Times(h, r)), unit) == Times(Times(c, r), Times(h, unit))
  {
    assert c * (h * r) == (c * r) * h;
    TimesAdd(c * r, h, unit);
  }

  // ----- Exact cover -----

  ghost predicate OnlySender(s: nat, local: nat, c: nat, remote: nat, heads: nat, unit: nat, b: nat)
    requires local > 0 && remote > 0 && heads > 0
  {
    && s in TargetRanks(c, remote, local)
    && forall p :: p in TargetRanks(c, remote, local) ==> Right(PlanFor(p, local, c, remote, heads, unit), p, local, c, remote, heads, unit, b, s)
  }

  lemma OneProducer(p: nat, local: nat, c: nat, remote: nat, ratio: nat, heads: nat, unit: nat, b: nat)
    requires local > 0 && heads > 0 && ratio > 0 && remote == Times(ratio, local) && p == c / ratio && remote > 0
    requires Right(PlanFor(p, local, c, remote, heads, unit), p, local, c, remote, heads, unit, b, p)
    ensures OnlySender(p, local, c, remote, heads, unit, b)
  {
    hide Right, PlanFor;
    LargeTargets(c, local, ratio);
  }

  lemma SmallTargetsOf(c: nat, size: nat, ratio: nat, remote: nat, p: nat)
    requires size > 0 && ratio > 1 && remote == Times(ratio, size)
    ensures remote > 0 && (p in TargetRanks(c, size, remote) <==> p / ratio == c)
  {
    SmallTargets(c, size, ratio, p);
    SizesSmaller(ratio, size, remote);
  }

  lemma CoverReplicatedToSharded(local: nat, c: nat, remote: nat, heads: nat, h: nat, a: nat, unit: nat, b: nat)
    requires remote > 0 && h > 0 && a > 1 && unit > 0 && heads == Times(h, remote) && local == Times(a, heads)
    requires b < Times(h, unit)
    ensures heads > 0 && local > 0 && exists s :: OnlySender(s, local, c, remote, heads, unit, b)
  {
    hide Times, Right, PlanFor, TargetRanks;
    Compose(a, h, remote);
    SizesLarger(h, remote, heads);
    SizesSmaller(a, heads, local);
    var k := Slot(b, unit);
    var s := Times(Times(c, h) + k, a);
    forall p | p in TargetRanks(c, remote, local) ensures Right(PlanFor(p, local, c, remote, heads, unit), p, local, c, remote, heads, unit, b, s) {
      SmallTargetsOf(c, remote, Times(a, h), local, p);
      ReplicatedToSharded(p, local, c, remote, heads, h, a, unit, b, k);
    }
    SlotBelow(b, h, unit);
    GroupOf(c, h, k, a);
    SmallTargetsOf(c, remote, Times(a, h), local, s);
    assert OnlySender(s, local, c, remote, heads, unit, b);
  }

  lemma SlotBelow(b: nat, n: nat, u: nat)
    requires u > 0 && b < Times(n, u)
    ensures Slot(b, u) < n
  {
    InSlot(b, u, Slot(b, u));
    MulCancel(Slot(b, u), n, u);
  }

  lemma GroupOf(c: nat, h: nat, k: nat, a: nat)
    requires k < h && a > 0
    ensures Times(a, h) > 0 && Times(Times(c, h) + k, a) / Times(a, h) == c
  {
    Compose(a, h, 0);
    SpreadOver(c, h, k, a);
    MulMonotone(k + 1, h, a);
    assert (k + 1) * a == k * a + a && h * a == a * h;
    DivMod(Times(Times(c, h) + k, a), Times(a, h), c, k * a);
  }

  lemma SpreadOver(c: nat, h: nat, k: nat, a: nat)
    ensures Times(Times(c, h) + k, a) == c * Times(a, h) + k * a
  {
    assert (c * h + k) * a == c * h * a + k * a;
    assert c * h * a == c * (a * h);
  }

  lemma CoverReplicatedLarger(local: nat, c: nat, remote: nat, heads: nat, a: nat, r: nat, unit: nat, b: nat)
    requires heads > 0 && a > 1 && r > 1 && unit > 0 && remote == Times(a, heads) && local == Times(r, remote) && b < unit
    ensures remote > 0 && local > 0 && exists s :: OnlySender(s, local, c, remote, heads, unit, b)
  {
    hide Times, Right, PlanFor, TargetRanks;
    SizesSmaller(a, heads, remote);
    SizesSmaller(r, remote, local);
    var s := Times(c, r);
    forall p | p in TargetRanks(c, remote, local) ensures Right(PlanFor(p, local, c, remote, heads, unit), p, local, c, remote, heads, unit, b, s) {
      SmallTargetsOf(c, remote, r, local, p);
      ReplicatedLarger(p, local, c, remote, heads, a, r, unit, b);
    }
    OnlyMultiple(s, r, c);
    SmallTargetsOf(c, remote, r, local, s);
    assert OnlySender(s, local, c, remote, heads, unit, b);
  }

  lemma CoverShardedLarger(local: nat, c: nat, remote: nat, heads: nat, h: nat, r: nat, unit: nat, b: nat)
    requires remote > 0 && h > 0 && r > 1 && unit > 0 && local == Times(r, remote) && heads == Times(h, local)
    requires b < Times(Times(h, r), unit)
    ensures local > 0 && heads > 0 && exists s :: OnlySender(s, local, c, remote, heads, unit, b)
  {
    hide Times, Right, PlanFor, TargetRanks;
    SizesSmaller(r, remote, local);
    SizesLarger(h, local, heads);
    Compose(h, unit, 0);
    var len := Times(h, unit);
    var k := Slot(b, len);
    var s := Times(c, r) + k;
    forall p | p in TargetRanks(c, remote, local) ensures Right(PlanFor(p, local, c, remote, heads, unit), p, local, c, remote, heads, unit, b, s) {
      SmallTargetsOf(c, remote, r, local, p);
      ShardedLarger(p, local, c, remote, heads, h, r, unit, b, k);
    }
    Regrouped(r, h, unit);
    SlotBelow(b, r, len);
    PlaceOf(c, r, k);
    SmallTargetsOf(c, remote, r, local, s);
    assert OnlySender(s, local, c, remote, heads, unit, b);
  }

  lemma PlaceOf(c: nat, r: nat, k: nat)
    requires k < r
    ensures (Times(c, r) + k) / r == c
  {
    DivMod(c * r + k, r, c, k);
  }

  lemma Exact(a: nat, b: nat)
    requires a >= b > 0 && (a % b == 0 || b % a == 0)
    ensures a / b > 0 && a == Times(a / b, b) && (a > b ==> a / b > 1)
  {
    DividesSmaller(a, b);
    Ratio(a, b);
  }

  /** Sizes nest: sharded below the head count, replicated above it, one dividing the other. */
  predicate Nesting(local: nat, remote: nat, heads: nat) {
    Even(local, heads) && Even(remote, heads) && (local % remote == 0 || remote % local == 0)
  }

  /** The case analysis over which sizes exceed the head count. */
  lemma CoverMoreProducers(local: nat, c: nat, remote: nat, heads: nat, unit: nat, b: nat)
    requires Nesting(local, remote, heads) && unit > 0 && local > remote && b < Times(HeadCount(remote, heads), unit)
    ensures exists s :: OnlySender(s, local, c, remote, heads, unit, b)
  {
    hide Times, OnlySender, HeadCount;
    Exact(local, remote);
    var r := local / remote;
    if remote > heads {
      Exact(remote, heads);
      Replicated(c, remote, remote / heads, heads);
      TimesUnit(unit);
      CoverReplicatedLarger(local, c, remote, heads, remote / heads, r, unit, b);
    } else if local > heads {
      Exact(heads, remote);
      Exact(local, heads);
      Sharded(c, remote, heads / remote, heads);
      CoverReplicatedToSharded(local, c, remote, heads, heads / remote, local / heads, unit, b);
    } else {
      Exact(heads, local);
      Compose(heads / local, r, remote);
      Sharded(c, remote, Times(heads / local, r), heads);
      CoverShardedLarger(local, c, remote, heads, heads / local, r, unit, b);
    }
  }

  lemma CoverMoreConsumers(local: nat, c: nat, remote: nat, heads: nat, unit: nat, b: nat)
    requires Nesting(local, remote, heads) && unit > 0 && local < remote && b < Times(HeadCount(remote, heads), unit)
    ensures exists s :: OnlySender(s, local, c, remote, heads, unit, b)
  {
    hide Times, OnlySender, HeadCount, Right, PlanFor;
    Exact(remote, local);
    var r := remote / local;
    var p := c / r;
    if local > heads {
      Exact(local, heads);
      Compose(r, local / heads, heads);
      Replicated(c, remote, Times(r, local / heads), heads);
      TimesUnit(unit);
      ReplicatedSmaller(p, local, c, remote, heads, local / heads, r, unit, b);
    } else if remote > heads {
      Exact(heads, local);
      Exact(remote, heads);
      var a, h := remote / heads, heads / local;
      Compose(a, h, local);
      Replicated(c, remote, a, heads);
      TimesUnit(unit);
      SameRatio(r, Times(a, h), local);
      ShardedToReplicated(p, local, c, remote, heads, h, a, unit, b);
    } else {
      Exact(heads, remote);
      Sharded(c, remote, heads / remote, heads);
      ShardedSmaller(p, local, c, remote, heads, heads / remote, r, unit, b);
    }
    OneProducer(p, local, c, remote, r, heads, unit, b);
  }

  lemma SameRatio(a: nat, b: nat, n: nat)
    requires n > 0 && Times(a, n) == Times(b, n)
    ensures a == b
  {
    ExactQuotient(a * n, n, a);
    ExactQuotient(b * n, n, b);
  }

  /** The plan is an exact cover: of the producers paired with consumer c, exactly one
      writes byte b of its block, every copy made names the same global head and byte
      on both sides, and every copy stays inside both blocks. */
  lemma ExactCover(local: nat, c: nat, remote: nat, heads: nat, unit: nat, b: nat)
    requires Nesting(local, remote, heads) && unit > 0 && b < Times(HeadCount(remote, heads), unit)
    ensures exists s :: OnlySender(s, local, c, remote, heads, unit, b)
  {
    if local > remote {
      CoverMoreProducers(local, c, remote, heads, unit, b);
    } else if local < remote {
      CoverMoreConsumers(local, c, remote, heads, unit, b);
    } else {
      SameSize(c, local, heads, unit, b);
      assert Times(1, local) == local && c / 1 == c;
      OneProducer(c, local, c, remote, 1, heads, unit, b);
    }
  }

  // ----- As the connector calls it: without a head count -----

  /** The length check for one region. */
  predicate LengthsMatch(ratio: int, localLen: nat, remoteLen: nat) {
    if ratio == 1 then localLen == remoteLen
    else if ratio > 0 then remoteLen == localLen * ratio
    else localLen == remoteLen * (-ratio)
  }

  /** What `_validate_asymmetric_region_lengths` answers; None where its assertion fails. */
  ghost function Accepts(localLens: seq<nat>, remoteLens: seq<nat>, local: nat, remote: nat, replicated: bool, heads: Option<nat>): Option<bool>
    requires local > 0 && remote > 0 && (heads.Some? ==> heads.value > 0)
  {
    if |localLens| != |remoteLens| then Some(false)
    else if heads.None? && replicated then Some(true)
    else
      var l := if heads.Some? then Least(local, heads.value) else local;
      var r := if heads.Some? then Least(remote, heads.value) else remote;
      match TpRatio(l, r)
      case None => None
      case Some(ratio) => Some(forall i :: 0 <= i < |localLens| ==> LengthsMatch(ratio, localLens[i], remoteLens[i]))
  }

  method ValidateRegions(localLens: seq<nat>, remoteLens: seq<nat>, local: nat, remote: nat, replicated: bool, heads: Option<nat>)
    returns (r: Option<bool>)
    requires local > 0 && remote > 0 && (heads.Some? ==> heads.value > 0)
    ensures r == Accepts(localLens, remoteLens, local, remote, replicated, heads)
  {
    if |localLens| != |remoteLens| { return Some(false); }
    var l, m := local, remote;
    if heads.Some? {
      l, m := Least(local, heads.value), Least(remote, heads.value);
    } else if replicated {
      return Some(true);
    }
    var ratio := TpRatio(l, m);
    if ratio.None? { return None; }
    hide LengthsMatch;
    var i := 0;
    while i < |localLens|
      invariant 0 <= i <= |localLens|
      invariant forall k :: 0 <= k < i ==> LengthsMatch(ratio.value, localLens[k], remoteLens[k])
    {
      if !LengthsMatch(ratio.value, localLens[i], remoteLens[i]) { return Some(false); }
      i := i + 1;
    }
    return Some(true);
  }

  function BarePlan(p: nat, local: nat, c: nat, remote: nat, localLen: nat, remoteLen: nat, replicated: bool): Option<Plan>
    requires local > 0 && remote > 0
  {
    SenderPlan(p, local, c, remote, localLen, remoteLen, replicated, None)
  }

  /** Accepted lengths share out the same number of bytes on both sides. */
  lemma SameTotal(local: nat, remote: nat, localLen: nat, remoteLen: nat)
    requires local > 0 && remote > 0 && TpRatio(local, remote).Some?
    requires LengthsMatch(TpRatio(local, remote).value, localLen, remoteLen)
    ensures Times(localLen, local) == Times(remoteLen, remote) && (local % remote == 0 || remote % local == 0)
  {
    if local >= remote {
      Ratio(local, remote);
      var r := local / remote;
      assert remoteLen == localLen * r;
      assert localLen * (r * remote) == (localLen * r) * remote;
    } else {
      Ratio(remote, local);
      var r := remote / local;
      assert localLen == remoteLen * r;
      assert remoteLen * (r * local) == (remoteLen * r) * local;
    }
  }

  lemma BareIsSharded(p: nat, local: nat, c: nat, remote: nat, localLen: nat, remoteLen: nat, heads: nat)
    requires local > 0 && remote > 0 && localLen > 0 && remoteLen > 0
    requires heads == Times(localLen, local) == Times(remoteLen, remote)
    ensures heads > 0 && BarePlan(p, local, c, remote, localLen, remoteLen, false) == PlanFor(p, local, c, remote, heads, 1)
    ensures HeadStart(p, local, heads) == Times(p, localLen) && HeadStart(c, remote, heads) == Times(c, remoteLen)
    ensures HeadCount(local, heads) == localLen && HeadCount(remote, heads) == remoteLen
  {
    Sharded(p, local, localLen, heads);
    Sharded(c, remote, remoteLen, heads);
    hide HeadStart, HeadCount, TpRatio, HeadPlan;
    assert Times(localLen, 1) == localLen && Times(remoteLen, 1) == remoteLen;
  }

  ghost predicate BareRight(plan: Option<Plan>, p: nat, c: nat, localLen: nat, remoteLen: nat, b: nat, s: nat) {
    && plan.Some? && plan.value.send
    && Times(p, localLen) + plan.value.src == Times(c, remoteLen) + plan.value.dst
    && plan.value.src + plan.value.len <= localLen && plan.value.dst + plan.value.len <= remoteLen
    && (Writes(plan.value, b) <==> p == s)
  }

  lemma BareFromRight(p: nat, local: nat, c: nat, remote: nat, localLen: nat, remoteLen: nat, heads: nat, b: nat, s: nat)
    requires local > 0 && remote > 0 && localLen > 0 && remoteLen > 0
    requires heads == Times(localLen, local) == Times(remoteLen, remote) && heads > 0
    requires Right(PlanFor(p, local, c, remote, heads, 1), p, local, c, remote, heads, 1, b, s)
    ensures BareRight(BarePlan(p, local, c, remote, localLen, remoteLen, false), p, c, localLen, remoteLen, b, s)
  {
    BareIsSharded(p, local, c, remote, localLen, remoteLen, heads);
    assert forall x: nat :: Times(x, 1) == x;
    assert BarePlan(p, local, c, remote, localLen, remoteLen, false).value.send;
    hide HeadStart, HeadCount, TpRatio, HeadPlan, SenderPlan;
  }

  /** Sharded caches: accepted lengths imply both bound assertions, and the paired
      copies tile each consumer block with the same global bytes. */
  lemma ValidatedCover(local: nat, c: nat, remote: nat, localLens: seq<nat>, remoteLens: seq<nat>, i: nat, b: nat)
    requires local > 0 && remote > 0 && Accepts(localLens, remoteLens, local, remote, false, None) == Some(true)
    requires i < |localLens| == |remoteLens| && localLens[i] > 0 && b < remoteLens[i]
    ensures exists s :: s in TargetRanks(c, remote, local) && forall p :: p in TargetRanks(c, remote, local) ==>
      BareRight(BarePlan(p, local, c, remote, localLens[i], remoteLens[i], false), p, c, localLens[i], remoteLens[i], b, s)
  {
    hide TpRatio;
    var l, r := localLens[i], remoteLens[i];
    assert LengthsMatch(TpRatio(local, remote).value, l, r);
    SameTotal(local, remote, l, r);
    var heads := Times(l, local);
    BareIsSharded(0, local, c, remote, l, r, heads);
    SizesLarger(l, local, heads);
    SizesLarger(r, remote, heads);
    ExactQuotient(heads, local, l);
    ExactQuotient(heads, remote, r);
    assert Nesting(local, remote, heads);
    assert Times(r, 1) == r;
    hide HeadCount, Nesting, Times, BareRight, Right, PlanFor, BarePlan, TargetRanks, LengthsMatch;
    ExactCover(local, c, remote, heads, 1, b);
    var s :| OnlySender(s, local, c, remote, heads, 1, b);
    forall p | p in TargetRanks(c, remote, local) ensures BareRight(BarePlan(p, local, c, remote, l, r, false), p, c, l, r, b, s) {
      BareFromRight(p, local, c, remote, l, r, heads, b, s);
    }
  }

  ghost predicate WholeFrom(s: nat, local: nat, c: nat, remote: nat, localLen: nat, remoteLen: nat, b: nat)
    requires local > 0 && remote > 0
  {
    && s in TargetRanks(c, remote, local)
    && forall p :: p in TargetRanks(c, remote, local) ==>
         var plan := BarePlan(p, local, c, remote, localLen, remoteLen, true);
         plan.Some? && (Writes(plan.value, b) <==> p == s && b < localLen)
  }

  lemma WholeFromMany(local: nat, c: nat, remote: nat, r: nat, localLen: nat, remoteLen: nat, b: nat)
    requires remote > 0 && r > 1 && local == Times(r, remote)
    ensures local > 0 && WholeFrom(Times(c, r), local, c, remote, localLen, remoteLen, b)
  {
    hide TargetRanks, TpRatio, Times;
    SizesLarger(r, remote, local);
    var s := Times(c, r);
    OnlyMultiple(s, r, c);
    SmallTargetsOf(c, remote, r, local, s);
    forall p | p in TargetRanks(c, remote, local)
      ensures var plan := BarePlan(p, local, c, remote, localLen, remoteLen, true);
        plan.Some? && (Writes(plan.value, b) <==> p == s && b < localLen)
    {
      SmallTargetsOf(c, remote, r, local, p);
      OnlyMultiple(p, r, c);
      assert BarePlan(p, local, c, remote, localLen, remoteLen, true) == Some(Plan(p % r == 0, 0, 0, localLen));
    }
  }

  lemma WholeFromOne(local: nat, c: nat, remote: nat, r: nat, localLen: nat, remoteLen: nat, b: nat)
    requires local > 0 && r > 0 && remote == Times(r, local)
    ensures remote > 0 && WholeFrom(c / r, local, c, remote, localLen, remoteLen, b)
  {
    hide TargetRanks, TpRatio;
    LargeTargets(c, local, r);
    SizesLarger(r, local, remote);
    if r > 1 { SizesSmaller(r, local, remote); } else { SizesLarger(1, local, local); }
    assert BarePlan(c / r, local, c, remote, localLen, remoteLen, true) == Some(Plan(true, 0, 0, localLen));
  }

  /** Replicated producers without a head count: of the paired producers exactly one
      writes, and it writes exactly the first localLen bytes. */
  lemma ReplicatedWithoutHeads(local: nat, c: nat, remote: nat, localLen: nat, remoteLen: nat, b: nat)
    requires local > 0 && remote > 0 && (local % remote == 0 || remote % local == 0)
    ensures exists s :: WholeFrom(s, local, c, remote, localLen, remoteLen, b)
  {
    hide WholeFrom, Times;
    if local > remote {
      Exact(local, remote);
      WholeFromMany(local, c, remote, local / remote, localLen, remoteLen, b);
    } else {
      Exact(remote, local);
      WholeFromOne(local, c, remote, remote / local, localLen, remoteLen, b);
    }
  }

  /** Four producers replicating two heads, one consumer holding both: without the head
      count nobody writes byte 8 of its 16-byte block; with it, producer 2 does. */
  lemma ReplicatedToShardedGap()
    ensures forall p :: p in TargetRanks(0, 1, 4) ==>
      BarePlan(p, 4, 0, 1, 8, 16, true).Some? && !Writes(BarePlan(p, 4, 0, 1, 8, 16, true).value, 8)
    ensures exists p :: p in TargetRanks(0, 1, 4) && PlanFor(p, 4, 0, 1, 2, 8).Some? && Writes(PlanFor(p, 4, 0, 1, 2, 8).value, 8)
  {
    assert TargetRanks(0, 1, 4) == [0, 1, 2, 3];
    assert 2 in TargetRanks(0, 1, 4);
    assert PlanFor(2, 4, 0, 1, 2, 8) == Some(Plan(true, 0, 8, 8));
  }

  // ----- Exactly when the head count can be left out -----

  /** Without a head count the plans of all paired producers are right for byte b. */
  ghost predicate BareSender(s: nat, local: nat, c: nat, remote: nat, heads: nat, unit: nat, b: nat)
    requires local > 0 && remote > 0 && heads > 0
  {
    && s in TargetRanks(c, remote, local)
    && forall p :: p in TargetRanks(c, remote, local) ==>
         Right(BareFor(p, local, c, remote, heads, unit), p, local, c, remote, heads, unit, b, s)
  }

  /** The plan of one pair for true block lengths, as the connector asks for it. */
  function BareFor(p: nat, local: nat, c: nat, remote: nat, heads: nat, unit: nat): Option<Plan>
    requires local > 0 && remote > 0 && heads > 0
  {
    BarePlan(p, local, c, remote, Times(HeadCount(local, heads), unit), Times(HeadCount(remote, heads), unit), local > heads)
  }

  ghost predicate BareCovers(local: nat, c: nat, remote: nat, heads: nat, unit: nat)
    requires local > 0 && remote > 0 && heads > 0
  {
    forall b: nat :: b < Times(HeadCount(remote, heads), unit) ==> BareSent(local, c, remote, heads, unit, b)
  }

  ghost predicate BareSent(local: nat, c: nat, remote: nat, heads: nat, unit: nat, b: nat)
    requires local > 0 && remote > 0 && heads > 0
  {
    exists s :: BareSender(s, local, c, remote, heads, unit, b)
  }

  /** Both caches replicated: the head count changes nothing. */
  lemma BareAsReplicated(p: nat, local: nat, c: nat, remote: nat, heads: nat, unit: nat)
    requires heads > 0 && local > heads && remote > heads
    ensures BareFor(p, local, c, remote, heads, unit) == PlanFor(p, local, c, remote, heads, unit)
  {
    hide TpRatio, HeadPlan, HeadCount, Times;
  }

  /** One head per consumer: the head plan sends the whole block of every head's first replica, as the bare plan does. */
  lemma BareAsOneHead(p: nat, local: nat, c: nat, heads: nat, a: nat, unit: nat)
    requires heads > 0 && a > 1 && local == Times(a, heads) && p / a == c
    ensures local > 0 && BareFor(p, local, c, heads, heads, unit) == PlanFor(p, local, c, heads, heads, unit)
  {
    hide Times, HeadStart, HeadCount, Replicas, TpRatio;
    Replicated(p, local, a, heads);
    assert Times(1, heads) == heads by { TimesUnit(heads); }
    Sharded(c, heads, 1, heads);
    assert Times(c, 1) == c by { TimesAdd(c, 1, 0); TimesUnit(c); }
    SizesLarger(a, heads, local);
    TimesUnit(unit);
    TimesUnit(Times(1, unit));
  }

  lemma BareCovered(local: nat, c: nat, remote: nat, heads: nat, unit: nat, b: nat)
    requires Nesting(local, remote, heads) && local > heads && remote >= heads && unit > 0
    requires b < Times(HeadCount(remote, heads), unit)
    ensures exists s :: BareSender(s, local, c, remote, heads, unit, b)
  {
    ExactCover(local, c, remote, heads, unit, b);
    hide Times, Right, PlanFor, BareFor, HeadCount, Nesting;
    var s :| OnlySender(s, local, c, remote, heads, unit, b);
    forall p | p in TargetRanks(c, remote, local)
      ensures Right(BareFor(p, local, c, remote, heads, unit), p, local, c, remote, heads, unit, b, s)
    {
      if remote > heads {
        BareAsReplicated(p, local, c, remote, heads, unit);
      } else {
        NestingExact(local, remote, heads);
        hide TargetRanks;
        SmallTargetsOf(c, heads, local / heads, local, p);
        BareAsOneHead(p, local, c, heads, local / heads, unit);
      }
    }
    assert BareSender(s, local, c, remote, heads, unit, b);
  }

  lemma NestingExact(local: nat, remote: nat, heads: nat)
    requires Nesting(local, remote, heads) && local > heads
    ensures local / heads > 1 && local == Times(local / heads, heads)
  {
    hide Times;
    Exact(local, heads);
  }

  /** A sharded consumer holds at least two heads, and the second one is never written. */
  lemma BareUncovered(local: nat, c: nat, remote: nat, heads: nat, unit: nat)
    requires Nesting(local, remote, heads) && local > heads > remote && unit > 0
    ensures unit < Times(HeadCount(remote, heads), unit) && forall s :: !BareSender(s, local, c, remote, heads, unit, unit)
  {
    hide Times, TargetRanks, TpRatio;
    NestingExact(local, remote, heads);
    Replicated(0, local, local / heads, heads);
    assert heads % remote == 0 || remote % heads == 0;
    Exact(heads, remote);
    Sharded(0, remote, heads / remote, heads);
    SlotFits(0, 1, unit);
    SlotFits(1, heads / remote, unit);
    TimesUnit(unit);
    hide HeadCount, Nesting, Right;
    ReplicatedWithoutHeads(local, c, remote, unit, Times(HeadCount(remote, heads), unit), unit);
    var w :| WholeFrom(w, local, c, remote, unit, Times(HeadCount(remote, heads), unit), unit);
    forall s ensures !BareSender(s, local, c, remote, heads, unit, unit) {
      if BareSender(s, local, c, remote, heads, unit, unit) {
        RightWrites(BareFor(s, local, c, remote, heads, unit), s, local, c, remote, heads, unit, unit);
      }
    }
  }

  lemma RightWrites(plan: Option<Plan>, s: nat, local: nat, c: nat, remote: nat, heads: nat, unit: nat, b: nat)
    requires local > 0 && remote > 0 && Right(plan, s, local, c, remote, heads, unit, b, s)
    ensures plan.Some? && Writes(plan.value, b)
  {
  }

  /** For a replicated producer cache and true block lengths, the plan without a head
      count is an exact cover with the right heads and bounds exactly when the
      consumers are at least as many as the heads. */
  lemma HeadCountDispensableReplicated(local: nat, c: nat, remote: nat, heads: nat, unit: nat)
    requires Nesting(local, remote, heads) && local > heads && unit > 0
    ensures BareCovers(local, c, remote, heads, unit) <==> remote >= heads
  {
    hide Times, BareSender, HeadCount;
    if remote >= heads {
      forall b: nat | b < Times(HeadCount(remote, heads), unit) ensures BareSent(local, c, remote, heads, unit, b) {
        BareCovered(local, c, remote, heads, unit, b);
      }
    } else {
      BareUncovered(local, c, remote, heads, unit);
      assert !BareSent(local, c, remote, heads, unit, unit);
    }
  }

  /** What the connector asserts of the copies it makes, and that they fill the block. */
  ghost predicate Fills(local: nat, c: nat, remote: nat, localLen: nat, remoteLen: nat)
    requires local > 0 && remote > 0
  {
    && (forall p :: p in TargetRanks(c, remote, local) ==> InBounds(BarePlan(p, local, c, remote, localLen, remoteLen, true), localLen, remoteLen))
    && (forall b: nat :: b < remoteLen ==> WrittenBySome(local, c, remote, localLen, remoteLen, b))
  }

  predicate InBounds(plan: Option<Plan>, localLen: nat, remoteLen: nat) {
    plan.Some? && (plan.value.send ==> plan.value.src + plan.value.len <= localLen && plan.value.dst + plan.value.len <= remoteLen)
  }

  ghost predicate WrittenBySome(local: nat, c: nat, remote: nat, localLen: nat, remoteLen: nat, b: nat)
    requires local > 0 && remote > 0
  {
    exists p :: p in TargetRanks(c, remote, local) && ByteFrom(p, local, c, remote, localLen, remoteLen, b)
  }

  predicate ByteFrom(p: nat, local: nat, c: nat, remote: nat, localLen: nat, remoteLen: nat, b: nat)
    requires local > 0 && remote > 0
  {
    var plan := BarePlan(p, local, c, remote, localLen, remoteLen, true); plan.Some? && Writes(plan.value, b)
  }

  lemma WrittenExactly(local: nat, c: nat, remote: nat, localLen: nat, remoteLen: nat, b: nat)
    requires local > 0 && remote > 0 && (local % remote == 0 || remote % local == 0)
    ensures WrittenBySome(local, c, remote, localLen, remoteLen, b) <==> b < localLen
  {
    hide TargetRanks, BarePlan;
    ReplicatedWithoutHeads(local, c, remote, localLen, remoteLen, b);
    var s :| WholeFrom(s, local, c, remote, localLen, remoteLen, b);
    if b < localLen { assert ByteFrom(s, local, c, remote, localLen, remoteLen, b); }
  }

  lemma SomeSends(local: nat, c: nat, remote: nat, localLen: nat, remoteLen: nat)
    requires local > 0 && remote > 0 && (local % remote == 0 || remote % local == 0)
    ensures exists s :: s in TargetRanks(c, remote, local) && BarePlan(s, local, c, remote, localLen, remoteLen, true) == Some(Plan(true, 0, 0, localLen))
    ensures forall p :: p in TargetRanks(c, remote, local) ==>
      var plan := BarePlan(p, local, c, remote, localLen, remoteLen, true); plan.Some? && plan.value == Plan(plan.value.send, 0, 0, localLen)
  {
    hide TargetRanks, TpRatio, Times;
    if local > remote {
      Exact(local, remote);
      var r := local / remote;
      SizesLarger(r, remote, local);
      SmallTargetsOf(c, remote, r, local, Times(c, r));
      OnlyMultiple(Times(c, r), r, c);
      assert BarePlan(Times(c, r), local, c, remote, localLen, remoteLen, true) == Some(Plan(true, 0, 0, localLen));
    } else {
      Exact(remote, local);
      var r := remote / local;
      assert TargetRanks(c, remote, local) == [c / r] by { TimesIsProduct(r, local); LargeTargets(c, local, r); }
      if r > 1 { SizesSmaller(r, local, remote); } else { TimesUnit(local); SizesLarger(1, local, remote); }
      assert BarePlan(c / r, local, c, remote, localLen, remoteLen, true) == Some(Plan(true, 0, 0, localLen));
      assert (c / r) in TargetRanks(c, remote, local);
    }
  }

  lemma TimesIsProduct(a: nat, b: nat)
    ensures Times(a, b) == a * b
  {
  }

  /** In lengths alone: both bound assertions hold and the block is filled exactly when
      the two block lengths are equal. */
  lemma FillsExactly(local: nat, c: nat, remote: nat, localLen: nat, remoteLen: nat)
    requires local > 0 && remote > 0 && (local % remote == 0 || remote % local == 0)
    ensures Fills(local, c, remote, localLen, remoteLen) <==> localLen == remoteLen
  {
    hide TargetRanks, BarePlan, WrittenBySome;
    SomeSends(local, c, remote, localLen, remoteLen);
    forall b: nat ensures WrittenBySome(local, c, remote, localLen, remoteLen, b) <==> b < localLen {
      WrittenExactly(local, c, remote, localLen, remoteLen, b);
    }
    if Fills(local, c, remote, localLen, remoteLen) {
      var s :| s in TargetRanks(c, remote, local) && BarePlan(s, local, c, remote, localLen, remoteLen, true) == Some(Plan(true, 0, 0, localLen));
      assert InBounds(BarePlan(s, local, c, remote, localLen, remoteLen, true), localLen, remoteLen);
      assert !WrittenBySome(local, c, remote, localLen, remoteLen, localLen);
    }
  }

  // ----- Sharded producers without a head count -----

  /** Both caches sharded: the head count changes nothing. */
  lemma BareAsSharded(p: nat, local: nat, c: nat, remote: nat, heads: nat, unit: nat)
    requires 0 < local <= heads && 0 < remote <= heads
    ensures BareFor(p, local, c, remote, heads, unit) == PlanFor(p, local, c, remote, heads, unit)
  {
    hide TpRatio, HeadPlan, HeadCount, Times;
  }

  /** A number is its own quotient only when it is zero. */
  lemma OwnQuotient(m: nat, a: nat)
    requires a > 1
    ensures m == m / a <==> m == 0
  {
    Place(m, a);
    MulMonotone(2, a, m / a);
    assert a * (m / a) == Times(m / a, a);
  }

  /** The consumer's head counted from its producer's first one. */
  lemma HeadWithin(c: nat, a: nat, h: nat)
    requires a > 0 && h > 0
    ensures Times(a, h) > 0 && c / a == Times(c / Times(a, h), h) + c % Times(a, h) / a
  {
    hide Times;
    Nested(c, a, h);
    var n := Times(a, h);
    Place(c / a, h);
    assert c % n / a == c / a % h by { DigitsOf(c, a, h); }
  }

  lemma DigitsOf(c: nat, a: nat, h: nat)
    requires a > 0 && h > 0 && Times(a, h) > 0
    ensures c % Times(a, h) / a == c / a % h
  {
    var q, r := c / a, c % a;
    var k, t := q / h, q % h;
    TwoDigits(c, a, h, q, r, k, t);
    DivMod(c, Times(a, h), k, Times(t, a) + r);
    DivMod(Times(t, a) + r, a, t, r);
  }

  lemma TwoDigits(c: nat, a: nat, h: nat, q: nat, r: nat, k: nat, t: nat)
    requires c == q * a + r && q == k * h + t && r < a && t < h
    ensures c == k * Times(a, h) + (Times(t, a) + r) && Times(t, a) + r < Times(a, h)
  {
    assert (k * h + t) * a == k * h * a + t * a;
    assert k * h * a == k * (a * h);
    MulMonotone(t + 1, h, a);
    MulNext(t, a);
  }

  /** Sharded producers, replicated consumers: the slice copied is the consumer's own
      head exactly for the first consumer of each producer. */
  lemma BareToReplicated(p: nat, local: nat, c: nat, remote: nat, heads: nat, h: nat, a: nat, unit: nat, b: nat)
    requires local > 0 && h > 0 && a > 1 && unit > 0 && heads == Times(h, local) && remote == Times(a, heads)
    requires b < unit && Times(a, h) > 0 && p == c / Times(a, h)
    ensures heads > 0 && remote > 0
    ensures Right(BareFor(p, local, c, remote, heads, unit), p, local, c, remote, heads, unit, b, p) <==> c % Times(a, h) == 0
  {
    hide Times, HeadStart, HeadCount, Replicas, TpRatio;
    Sharded(p, local, h, heads);
    Replicated(c, remote, a, heads);
    Compose(a, h, local);
    var n := Times(a, h);
    SizesSmaller(n, local, remote);
    TimesUnit(unit);
    var m := c % n;
    assert BareFor(p, local, c, remote, heads, unit) == Some(Plan(true, Times(m, unit), 0, unit));
    HeadWithin(c, a, h);
    OwnQuotient(m, a);
    TimesAdd(Times(p, h), m, unit);
    TimesAdd(Times(p, h), m / a, unit);
    SlotFits(0, h, unit);
    TimesInjective(m, m / a, unit);
  }

  lemma TimesInjective(x: nat, y: nat, unit: nat)
    requires unit > 0
    ensures Times(x, unit) == Times(y, unit) <==> x == y
  {
    MulCancel(x, y, unit);
    MulCancel(y, x, unit);
    if x < y { MulMonotone(x + 1, y, unit); MulNext(x, unit); }
    if y < x { MulMonotone(y + 1, x, unit); MulNext(y, unit); }
  }

  lemma BareShardedCovered(local: nat, c: nat, remote: nat, heads: nat, unit: nat, b: nat)
    requires Nesting(local, remote, heads) && local <= heads && remote <= heads && unit > 0
    requires b < Times(HeadCount(remote, heads), unit)
    ensures BareSent(local, c, remote, heads, unit, b)
  {
    ExactCover(local, c, remote, heads, unit, b);
    hide Times, Right, PlanFor, BareFor, HeadCount, Nesting;
    var s :| OnlySender(s, local, c, remote, heads, unit, b);
    forall p | p in TargetRanks(c, remote, local)
      ensures Right(BareFor(p, local, c, remote, heads, unit), p, local, c, remote, heads, unit, b, s)
    {
      BareAsSharded(p, local, c, remote, heads, unit);
    }
    assert BareSender(s, local, c, remote, heads, unit, b);
  }

  lemma BareOneSender(local: nat, c: nat, remote: nat, heads: nat, unit: nat, b: nat)
    requires Nesting(local, remote, heads) && local <= heads < remote && unit > 0 && b < unit
    ensures BareSent(local, c, remote, heads, unit, b) <==> c % (remote / local) == 0
  {
    hide Times, Right, BareFor;
    Exact(heads, local);
    Exact(remote, heads);
    var h, a := heads / local, remote / heads;
    Compose(a, h, local);
    var n := Times(a, h);
    assert remote == Times(n, local);
    assert remote / local == n by { RatioIs(remote, local, n); }
    var p := c / n;
    assert TargetRanks(c, remote, local) == [p] by { TimesIsProduct(n, local); LargeTargets(c, local, n); }
    hide TargetRanks;
    BareToReplicated(p, local, c, remote, heads, h, a, unit, b);
    if c % n == 0 { assert BareSender(p, local, c, remote, heads, unit, b); }
    if BareSent(local, c, remote, heads, unit, b) {
      var s :| BareSender(s, local, c, remote, heads, unit, b);
      assert s == p;
    }
  }

  lemma RatioIs(m: nat, n: nat, k: nat)
    requires n > 0 && m == Times(k, n)
    ensures m / n == k
  {
    ExactQuotient(m, n, k);
  }

  /** For a sharded producer cache and true block lengths, the plan without a head count
      is an exact cover with the right heads and bounds exactly when the consumer cache
      is sharded too, or the consumer is the first one of its producer. */
  lemma HeadCountDispensableSharded(local: nat, c: nat, remote: nat, heads: nat, unit: nat)
    requires Nesting(local, remote, heads) && local <= heads && unit > 0
    ensures BareCovers(local, c, remote, heads, unit) <==> remote <= heads || (remote / local > 0 && c % (remote / local) == 0)
  {
    hide Times, BareSender, HeadCount, BareSent;
    if remote <= heads {
      forall b: nat | b < Times(HeadCount(remote, heads), unit) ensures BareSent(local, c, remote, heads, unit, b) {
        BareShardedCovered(local, c, remote, heads, unit, b);
      }
    } else {
      Exact(remote, heads);
      Replicated(c, remote, remote / heads, heads);
      TimesUnit(unit);
      forall b: nat | b < unit ensures BareSent(local, c, remote, heads, unit, b) <==> c % (remote / local) == 0 {
        BareOneSender(local, c, remote, heads, unit, b);
      }
      assert BareCovers(local, c, remote, heads, unit) ==> BareSent(local, c, remote, heads, unit, 0);
    }
  }

  /** Exactly when the connector may leave the head count out, for any two cache layouts
      with true block lengths: consumer c is served every byte of its own heads, once and
      in bounds, iff this holds. */
  predicate HeadCountUnneeded(local: nat, c: nat, remote: nat, heads: nat)
    requires local > 0
  {
    if local > heads then remote >= heads else remote <= heads || c % Most(remote / local, 1) == 0
  }

  lemma HeadCountDispensable(local: nat, c: nat, remote: nat, heads: nat, unit: nat)
    requires Nesting(local, remote, heads) && unit > 0
    ensures BareCovers(local, c, remote, heads, unit) <==> HeadCountUnneeded(local, c, remote, heads)
  {
    hide BareCovers;
    if local > heads {
      HeadCountDispensableReplicated(local, c, remote, heads, unit);
    } else {
      HeadCountDispensableSharded(local, c, remote, heads, unit);
      if remote > heads { QuotientPositive(remote, local); }
    }
  }

  /** For true lengths of a sharded producer cache, validation accepts exactly the
      sharded consumer caches, the ones the plan serves in full. */
  lemma ValidationSeparates(local: nat, remote: nat, heads: nat, unit: nat)
    requires Nesting(local, remote, heads) && local <= heads && unit > 0
    ensures Accepts([Times(HeadCount(local, heads), unit)], [Times(HeadCount(remote, heads), unit)], local, remote, false, None)
         == Some(remote <= heads)
  {
    hide Times, HeadCount, TpRatio, LengthsMatch;
    var l, r := Times(HeadCount(local, heads), unit), Times(HeadCount(remote, heads), unit);
    assert [l][0] == l && [r][0] == r;
    if remote > heads {
      RejectsReplicated(local, remote, heads, unit);
    } else if local >= remote {
      AcceptsLarger(local, remote, heads, unit);
    } else {
      AcceptsSmaller(local, remote, heads, unit);
    }
  }

  lemma RejectsReplicated(local: nat, remote: nat, heads: nat, unit: nat)
    requires Nesting(local, remote, heads) && local <= heads < remote && unit > 0
    ensures TpRatio(local, remote).Some?
    ensures !LengthsMatch(TpRatio(local, remote).value, Times(HeadCount(local, heads), unit), Times(HeadCount(remote, heads), unit))
  {
    hide Times, HeadCount, TpRatio;
    Exact(heads, local);
    Exact(remote, heads);
    var h, a := heads / local, remote / heads;
    Compose(a, h, local);
    SizesSmaller(Times(a, h), local, remote);
    Sharded(0, local, h, heads);
    Replicated(0, remote, a, heads);
    TimesUnit(unit);
    TimesInjective(h, Times(a, h), unit);
    TimesInjective(1, a, h);
    TimesUnit(h);
    TimesIsProduct(unit, Times(a, h));
    TimesAdd(unit, Times(a, h), 0);
  }

  lemma AcceptsLarger(local: nat, remote: nat, heads: nat, unit: nat)
    requires Nesting(local, remote, heads) && remote <= local <= heads && unit > 0
    ensures TpRatio(local, remote).Some?
    ensures LengthsMatch(TpRatio(local, remote).value, Times(HeadCount(local, heads), unit), Times(HeadCount(remote, heads), unit))
  {
    hide Times, HeadCount, TpRatio;
    Exact(heads, local);
    Exact(local, remote);
    var h, r := heads / local, local / remote;
    SizesLarger(r, remote, local);
    Compose(h, r, remote);
    Sharded(0, local, h, heads);
    Sharded(0, remote, Times(h, r), heads);
    Regrouped(r, h, unit);
    TimesIsProduct(Times(h, unit), r);
    TimesAdd(Times(h, unit), r, 0);
    TimesUnit(h);
    TimesAdd(h, 1, 0);
  }

  lemma AcceptsSmaller(local: nat, remote: nat, heads: nat, unit: nat)
    requires Nesting(local, remote, heads) && local < remote <= heads && unit > 0
    ensures TpRatio(local, remote).Some?
    ensures LengthsMatch(TpRatio(local, remote).value, Times(HeadCount(local, heads), unit), Times(HeadCount(remote, heads), unit))
  {
    hide Times, HeadCount, TpRatio;
    Exact(heads, remote);
    Exact(remote, local);
    var g, r := heads / remote, remote / local;
    SizesSmaller(r, local, remote);
    Compose(g, r, local);
    Sharded(0, local, Times(g, r), heads);
    Sharded(0, remote, g, heads);
    Regrouped(r, g, unit);
    TimesIsProduct(Times(g, unit), r);
    TimesAdd(Times(g, unit), r, 0);
  }

  /** One producer of two heads, four consumers: without the head count consumer 1, which
      holds head 0, is sent head 1.  Both bound assertions hold, and only validation,
      where it is made, refuses these lengths. */
  lemma ShardedToReplicatedWrong()
    ensures TargetRanks(1, 4, 1) == [0] && HeadStart(0, 1, 2) == HeadStart(1, 4, 2) == 0
    ensures BareFor(0, 1, 1, 4, 2, 8) == BarePlan(0, 1, 1, 4, 16, 8, false) == Some(Plan(true, 8, 0, 8))
    ensures !BareCovers(1, 1, 4, 2, 8)
    ensures Accepts([16], [8], 1, 4, false, None) == Some(false)
  {
    assert Nesting(1, 4, 2);
    HeadCountDispensableSharded(1, 1, 4, 2, 8);
    ValidationSeparates(1, 4, 2, 8);
    assert HeadCount(1, 2) == 2 && HeadCount(4, 2) == 1 && Times(2, 8) == 16 && Times(1, 8) == 8;
  }

  lemma MatchIsTotal(local: nat, remote: nat, l: nat, r: nat)
    requires local > 0 && remote > 0 && TpRatio(local, remote).Some?
    ensures LengthsMatch(TpRatio(local, remote).value, l, r) <==> Times(l, local) == Times(r, remote)
  {
    hide Times;
    if local >= remote {
      var ratio := local / remote;
      assert local == ratio * remote;
      TimesIsProduct(ratio, remote);
      TimesAdd(l, ratio, remote);
      TimesInjective(Times(l, ratio), r, remote);
      TimesIsProduct(l, ratio);
      if ratio == 1 { TimesUnit(l); TimesAdd(l, 1, 0); }
      QuotientPositive(local, remote);
    } else {
      var ratio := remote / local;
      assert remote == ratio * local;
      TimesIsProduct(ratio, local);
      TimesAdd(r, ratio, local);
      TimesInjective(l, Times(r, ratio), local);
      TimesIsProduct(r, ratio);
    }
  }

  /** What validation demands of a cache it does not take as replicated: equal counts and,
      per region, the same bytes over all ranks that hold different heads. */
  lemma ValidationExactly(localLens: seq<nat>, remoteLens: seq<nat>, local: nat, remote: nat, replicated: bool, heads: Option<nat>)
    requires local > 0 && remote > 0 && (heads.Some? ==> heads.value > 0) && (replicated ==> heads.Some?)
    ensures var l, r := if heads.Some? then Least(local, heads.value) else local, if heads.Some? then Least(remote, heads.value) else remote;
      var answer := Accepts(localLens, remoteLens, local, remote, replicated, heads);
      && (answer.None? <==> |localLens| == |remoteLens| && l % r != 0 && r % l != 0)
      && (answer == Some(true) <==>
            && |localLens| == |remoteLens| && (l % r == 0 || r % l == 0)
            && forall i :: 0 <= i < |localLens| ==> Times(localLens[i], l) == Times(remoteLens[i], r))
  {
    hide Times, LengthsMatch;
    var l, r := if heads.Some? then Least(local, heads.value) else local, if heads.Some? then Least(remote, heads.value) else remote;
    if |localLens| == |remoteLens| {
      Divides(l, r);
      if TpRatio(l, r).Some? {
        hide TpRatio;
        forall i | 0 <= i < |localLens|
          ensures LengthsMatch(TpRatio(l, r).value, localLens[i], remoteLens[i]) <==> Times(localLens[i], l) == Times(remoteLens[i], r)
        {
          MatchIsTotal(l, r, localLens[i], remoteLens[i]);
        }
      }
    }
  }

  lemma Divides(l: nat, r: nat)
    requires l > 0 && r > 0
    ensures TpRatio(l, r).Some? <==> l % r == 0 || r % l == 0
  {
    if l >= r && r % l == 0 { DividesSmaller(l, r); }
    if r > l && l % r == 0 { DividesSmaller(r, l); }
  }
}
