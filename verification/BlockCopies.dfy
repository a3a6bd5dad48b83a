/** Raw block transfers of kvsfuse-vllm0.30.0/mooncake/mooncake_connector.py: matching
    block lists, coalescing contiguous runs into larger copies, and what the copies
    leave in the destination memory. */
module BlockCopies {
  import opened Wrappers
  import opened Powers
  import opened TransferPlan

  /** One transfer descriptor. */
  datatype Desc = Desc(src: int, dst: int, len: int)

  type Memory = map<int, int>

  /** Remote write of one descriptor; the source memory is another machine's. */
  function Copy(d: Desc, source: int -> int, m: Memory): Memory {
    m + map a | d.dst <= a < d.dst + d.len :: Moved(d, source, a)
  }

  /** The source byte that lands at address a. */
  function Moved(d: Desc, source: int -> int, a: int): int { source(d.src + (a - d.dst)) }

  lemma CopyAt(d: Desc, source: int -> int, m: Memory, a: int)
    ensures var r := Copy(d, source, m);
      if d.dst <= a < d.dst + d.len then a in r && r[a] == source(d.src + (a - d.dst))
      else (a in r <==> a in m) && (a in r ==> r[a] == m[a])
  {
    assert Moved(d, source, a) == source(d.src + (a - d.dst));
  }

  function Execute(ds: seq<Desc>, source: int -> int, m: Memory): Memory {
    if ds == [] then m else Execute(ds[1..], source, Copy(ds[0], source, m))
  }

  lemma {:induction false} ExecuteAppend(a: seq<Desc>, b: seq<Desc>, source: int -> int, m: Memory)
    ensures Execute(a + b, source, m) == Execute(b, source, Execute(a, source, m))
    decreases |a|
  {
    hide Copy;
    if a == [] {
      assert a + b == b;
    } else {
      assert (a + b)[1..] == a[1..] + b;
      ExecuteAppend(a[1..], b, source, Copy(a[0], source, m));
    }
  }

  /** Two adjacent copies are one. */
  lemma CopyJoin(s: int, d: int, a: nat, b: nat, source: int -> int, m: Memory)
    ensures Copy(Desc(s + a, d + a, b), source, Copy(Desc(s, d, a), source, m)) == Copy(Desc(s, d, a + b), source, m)
  {
    hide Copy;
    var first := Copy(Desc(s, d, a), source, m);
    var two, one := Copy(Desc(s + a, d + a, b), source, first), Copy(Desc(s, d, a + b), source, m);
    forall x ensures (x in two <==> x in one) && (x in two ==> two[x] == one[x]) {
      CopyAt(Desc(s, d, a), source, m, x);
      CopyAt(Desc(s + a, d + a, b), source, first, x);
      CopyAt(Desc(s, d, a + b), source, m, x);
    }
    assert two.Keys == one.Keys;
  }

  // ----- One region -----

  /** A registered KV tensor of the producer with its match on the consumer: stride of
      its blocks and the KV bytes in each. */
  datatype RegionPair = RegionPair(
    group: nat, localBase: int, localLen: nat, localKv: nat, remoteBase: int, remoteLen: nat, remoteKv: nat)
  {
    /** The plan as the connector computes it, without a head count. */
    function PlanOf(t: Ranks): Option<Plan>
      requires t.Valid()
    {
      BarePlan(t.rank, t.size, t.remoteRank, t.remoteSize, localKv, remoteKv, t.replicated)
    }

    /** Its copies; a pair without a plan is never copied. */
    function Planned(t: Ranks): Region
      requires t.Valid()
    {
      var plan := PlanOf(t);
      Region(group, localBase, localLen, remoteBase, remoteLen, if plan.Some? then plan.value else Plan(false, 0, 0, 0))
    }
  }

  /** One producer rank facing one consumer rank. */
  datatype Ranks = Ranks(rank: nat, size: nat, remoteRank: nat, remoteSize: nat, replicated: bool)
  {
    predicate Valid() { size > 0 && remoteSize > 0 }
  }

  /** A matched tensor with the plan for its blocks. */
  datatype Region = Region(group: nat, localBase: int, localLen: nat, remoteBase: int, remoteLen: nat, plan: Plan)
  {
    /** The copy of one block. */
    function Block(l: nat, r: nat): Desc {
      Desc(localBase + l * localLen + plan.src, remoteBase + r * remoteLen + plan.dst, plan.len)
    }

    predicate CanCoalesce() { plan.src == 0 && plan.dst == 0 && plan.len == localLen && plan.len == remoteLen }
  }

  /** Block by block. */
  function Naive(g: Region, ls: seq<nat>, rs: seq<nat>): seq<Desc>
    requires |ls| == |rs|
  {
    if ls == [] then [] else [g.Block(ls[0], rs[0])] + Naive(g, ls[1..], rs[1..])
  }

  /** `np.diff` differs from 1 on either side between positions i - 1 and i. */
  predicate Breaks(ls: seq<nat>, rs: seq<nat>, i: nat)
    requires 0 < i < |ls| == |rs|
  {
    ls[i] != ls[i - 1] + 1 || rs[i] != rs[i - 1] + 1
  }

  /** Length of the leading group that `np.split` cuts off. */
  function RunLength(ls: seq<nat>, rs: seq<nat>): (k: nat)
    requires |ls| == |rs| && ls != []
    ensures 0 < k <= |ls|
  {
    if |ls| == 1 || Breaks(ls, rs, 1) then 1 else 1 + RunLength(ls[1..], rs[1..])
  }

  /** The group ends at the first break. */
  lemma {:induction false} RunIsMaximal(ls: seq<nat>, rs: seq<nat>)
    requires |ls| == |rs| && ls != []
    ensures var k := RunLength(ls, rs);
      && (forall i :: 0 < i < k ==> !Breaks(ls, rs, i))
      && (k < |ls| ==> Breaks(ls, rs, k))
  {
    if |ls| > 1 && !Breaks(ls, rs, 1) {
      RunIsMaximal(ls[1..], rs[1..]);
      var k := RunLength(ls, rs);
      forall i | 0 < i < k ensures !Breaks(ls, rs, i) {
        if i > 1 { assert Breaks(ls, rs, i) <==> Breaks(ls[1..], rs[1..], i - 1); }
      }
      if k < |ls| { assert Breaks(ls, rs, k) <==> Breaks(ls[1..], rs[1..], k - 1); }
    }
  }

  function GroupDescs(g: Region, ls: seq<nat>, rs: seq<nat>): seq<Desc>
    requires |ls| == |rs| && ls != []
  {
    if g.CanCoalesce() then
      [Desc(g.localBase + ls[0] * g.localLen + g.plan.src, g.remoteBase + rs[0] * g.remoteLen + g.plan.dst, g.plan.len * |ls|)]
    else Naive(g, ls, rs)
  }

  /** The descriptors the connector emits for one region. */
  function Emitted(g: Region, ls: seq<nat>, rs: seq<nat>): seq<Desc>
    requires |ls| == |rs|
  {
    if ls == [] then []
    else
      var k := RunLength(ls, rs);
      GroupDescs(g, ls[..k], rs[..k]) + Emitted(g, ls[k..], rs[k..])
  }

  ghost predicate Contiguous(ls: seq<nat>) {
    forall i :: 0 < i < |ls| ==> ls[i] == ls[i - 1] + 1
  }

  /** Copying a contiguous run block by block is one copy of the run's length. */
  lemma {:induction false} RunCopy(ls: seq<nat>, rs: seq<nat>, g: Region, source: int -> int, m: Memory)
    requires |ls| == |rs| && ls != [] && Contiguous(ls) && Contiguous(rs) && g.CanCoalesce()
    ensures Execute(Naive(g, ls, rs), source, m)
         == Copy(Desc(g.localBase + ls[0] * g.localLen, g.remoteBase + rs[0] * g.remoteLen, g.plan.len * |ls|), source, m)
    decreases |ls|
  {
    hide Copy, Execute, Naive;
    var n := |ls| - 1;
    if n == 0 {
      OneBlock(g, ls, rs, source, m);
    } else {
      var a, b := ls[..n], rs[..n];
      assert ls == a + [ls[n]] && rs == b + [rs[n]];
      RunCopy(a, b, g, source, m);
      NaiveLast(g, a, b, ls[n], rs[n]);
      ExecuteAppend(Naive(g, a, b), [g.Block(ls[n], rs[n])], source, m);
      ExecuteOne(g.Block(ls[n], rs[n]), source, Execute(Naive(g, a, b), source, m));
      LastOfRun(ls);
      LastOfRun(rs);
      NextBlock(g, ls[0], rs[0], n, source, m);
    }
  }

  /** The block after a run of n blocks extends its copy. */
  lemma NextBlock(g: Region, l: nat, r: nat, n: nat, source: int -> int, m: Memory)
    requires g.CanCoalesce()
    ensures var s, d, t := g.localBase + l * g.localLen, g.remoteBase + r * g.remoteLen, g.plan.len;
      Copy(g.Block(l + n, r + n), source, Copy(Desc(s, d, t * n), source, m)) == Copy(Desc(s, d, t * (n + 1)), source, m)
  {
    hide Copy;
    var t := g.plan.len;
    Advance(l, n, t);
    Advance(r, n, t);
    var s, d := g.localBase + l * t, g.remoteBase + r * t;
    assert g.Block(l + n, r + n) == Desc(s + t * n, d + t * n, t);
    CopyJoin(s, d, t * n, t, source, m);
    assert t * n + t == t * (n + 1);
  }

  lemma Advance(first: nat, n: nat, t: nat)
    ensures (first + n) * t == first * t + t * n && t * n >= 0
  {
  }

  lemma ExecuteOne(d: Desc, source: int -> int, m: Memory)
    ensures Execute([d], source, m) == Copy(d, source, m)
  {
  }

  lemma OneBlock(g: Region, ls: seq<nat>, rs: seq<nat>, source: int -> int, m: Memory)
    requires |ls| == |rs| == 1 && g.CanCoalesce()
    ensures Execute(Naive(g, ls, rs), source, m)
         == Copy(Desc(g.localBase + ls[0] * g.localLen, g.remoteBase + rs[0] * g.remoteLen, g.plan.len * |ls|), source, m)
  {
    hide Copy;
    assert Naive(g, ls, rs) == [g.Block(ls[0], rs[0])];
    ExecuteOne(g.Block(ls[0], rs[0]), source, m);
  }

  lemma {:induction false} LastOfRun(ls: seq<nat>)
    requires ls != [] && Contiguous(ls)
    ensures ls[|ls| - 1] == ls[0] + (|ls| - 1)
  {
    if |ls| > 1 { LastOfRun(ls[..|ls| - 1]); }
  }

  lemma {:induction false} NaiveLast(g: Region, ls: seq<nat>, rs: seq<nat>, l: nat, r: nat)
    requires |ls| == |rs|
    ensures Naive(g, ls + [l], rs + [r]) == Naive(g, ls, rs) + [g.Block(l, r)]
  {
    if ls != [] {
      assert (ls + [l])[1..] == ls[1..] + [l] && (rs + [r])[1..] == rs[1..] + [r];
      NaiveLast(g, ls[1..], rs[1..], l, r);
    }
  }

  lemma {:induction false} NaiveAppend(g: Region, la: seq<nat>, ra: seq<nat>, lb: seq<nat>, rb: seq<nat>)
    requires |la| == |ra| && |lb| == |rb|
    ensures Naive(g, la + lb, ra + rb) == Naive(g, la, ra) + Naive(g, lb, rb)
  {
    if la == [] {
      assert la + lb == lb && ra + rb == rb;
    } else {
      assert (la + lb)[1..] == la[1..] + lb && (ra + rb)[1..] == ra[1..] + rb;
      NaiveAppend(g, la[1..], ra[1..], lb, rb);
    }
  }

  lemma GroupRefines(g: Region, ls: seq<nat>, rs: seq<nat>, source: int -> int, m: Memory)
    requires |ls| == |rs| && ls != [] && Contiguous(ls) && Contiguous(rs)
    ensures Execute(GroupDescs(g, ls, rs), source, m) == Execute(Naive(g, ls, rs), source, m)
  {
    hide Copy, Execute, Naive;
    if g.CanCoalesce() {
      RunCopy(ls, rs, g, source, m);
      ExecuteOne(GroupDescs(g, ls, rs)[0], source, m);
    }
  }

  /** Emitted copies leave the bytes the block-by-block copies leave. */
  lemma {:induction false} EmittedRefines(g: Region, ls: seq<nat>, rs: seq<nat>, source: int -> int, m: Memory)
    requires |ls| == |rs|
    ensures Execute(Emitted(g, ls, rs), source, m) == Execute(Naive(g, ls, rs), source, m)
    decreases |ls|
  {
    if ls != [] {
      var k := RunLength(ls, rs);
      RunIsMaximal(ls, rs);
      hide Execute, Copy, GroupDescs, Naive, RunLength;
      var la, ra, lb, rb := ls[..k], rs[..k], ls[k..], rs[k..];
      assert Contiguous(la) by { forall i | 0 < i < |la| ensures la[i] == la[i - 1] + 1 { assert !Breaks(ls, rs, i); } }
      assert Contiguous(ra) by { forall i | 0 < i < |ra| ensures ra[i] == ra[i - 1] + 1 { assert !Breaks(ls, rs, i); } }
      assert ls == la + lb && rs == ra + rb;
      NaiveAppend(g, la, ra, lb, rb);
      ExecuteAppend(GroupDescs(g, la, ra), Emitted(g, lb, rb), source, m);
      ExecuteAppend(Naive(g, la, ra), Naive(g, lb, rb), source, m);
      GroupRefines(g, la, ra, source, m);
      EmittedRefines(g, lb, rb, source, Execute(Naive(g, la, ra), source, m));
    }
  }

  /** The number of places where the lists break. */
  ghost function BreakCount(ls: seq<nat>, rs: seq<nat>, n: nat): nat
    requires n <= |ls| == |rs|
  {
    if n <= 1 then 0 else BreakCount(ls, rs, n - 1) + (if Breaks(ls, rs, n - 1) then 1 else 0)
  }

  lemma {:induction false} BreaksAfter(ls: seq<nat>, rs: seq<nat>, k: nat, n: nat)
    requires 0 < k < n <= |ls| == |rs|
    ensures BreakCount(ls, rs, n) == BreakCount(ls, rs, k) + (if Breaks(ls, rs, k) then 1 else 0) + BreakCount(ls[k..], rs[k..], n - k)
    decreases n
  {
    if n > k + 1 {
      BreaksAfter(ls, rs, k, n - 1);
      assert Breaks(ls, rs, n - 1) <==> Breaks(ls[k..], rs[k..], n - 1 - k);
    }
  }

  lemma {:induction false} NoBreaks(ls: seq<nat>, rs: seq<nat>, n: nat)
    requires n <= |ls| == |rs| && forall i :: 0 < i < n ==> !Breaks(ls, rs, i)
    ensures BreakCount(ls, rs, n) == 0
  {
    if n > 1 { NoBreaks(ls, rs, n - 1); }
  }

  lemma {:induction false} NaiveCount(g: Region, ls: seq<nat>, rs: seq<nat>)
    requires |ls| == |rs|
    ensures |Naive(g, ls, rs)| == |ls|
  {
    if ls != [] { NaiveCount(g, ls[1..], rs[1..]); }
  }

  /** How many descriptors a region takes: one per contiguous run when whole blocks are
      copied, one per block otherwise. */
  lemma {:induction false} DescriptorCount(g: Region, ls: seq<nat>, rs: seq<nat>)
    requires |ls| == |rs| && ls != []
    ensures |Emitted(g, ls, rs)| ==
      if g.plan.src == 0 && g.plan.dst == 0 && g.plan.len == g.localLen == g.remoteLen then 1 + BreakCount(ls, rs, |ls|) else |ls|
    decreases |ls|
  {
    var k := RunLength(ls, rs);
    RunIsMaximal(ls, rs);
    NoBreaks(ls, rs, k);
    NaiveCount(g, ls[..k], rs[..k]);
    hide RunLength, Naive;
    if k < |ls| {
      BreaksAfter(ls, rs, k, |ls|);
      DescriptorCount(g, ls[k..], rs[k..]);
    } else {
      assert Emitted(g, ls[k..], rs[k..]) == [];
    }
  }

  // ----- All regions and requests -----

  const NULL_BLOCK_ID: nat := 0

  /** Block ids of one request, per KV-cache group. */
  datatype Request = Request(locals: seq<seq<nat>>, remotes: seq<seq<nat>>)

  datatype Outcome = Skipped | Mismatched | Copies(locals: seq<seq<nat>>, remotes: seq<seq<nat>>)

  function NonNull(ids: seq<nat>): seq<nat> {
    if ids == [] then [] else (if ids[0] != NULL_BLOCK_ID then [ids[0]] else []) + NonNull(ids[1..])
  }

  function Used(ids: seq<nat>, mamba: bool): seq<nat> { if mamba then NonNull(ids) else ids }

  /** A prefix-cache hit leaves fewer remote blocks: the local suffix is sent. */
  function Suffix(ids: seq<nat>, n: nat): seq<nat>
    requires n <= |ids|
  {
    ids[|ids| - n..]
  }

  /** Logical blocks of attention groups become runs of kernel blocks. */
  function KernelIds(ids: seq<nat>, perBlock: nat): (r: seq<nat>)
    ensures |r| == |ids| * perBlock
  {
    if ids == [] then []
    else
      assert |ids| * perBlock == perBlock + |ids[1..]| * perBlock;
      KernelRun(ids[0], perBlock) + KernelIds(ids[1..], perBlock)
  }

  function KernelRun(id: nat, perBlock: nat): (r: seq<nat>)
    ensures |r| == perBlock
  {
    seq(perBlock, i requires 0 <= i < perBlock => id * perBlock + i)
  }

  function Kernel(ids: seq<nat>, mamba: bool, perBlock: nat): seq<nat> {
    if mamba || perBlock == 1 then ids else KernelIds(ids, perBlock)
  }

  /** Matched ids of the groups from i on; None when a group has too few local blocks. */
  function Matched(q: Request, mambas: seq<bool>, perBlock: nat, i: nat): Option<(seq<seq<nat>>, seq<seq<nat>>)>
    requires |q.locals| == |q.remotes| <= |mambas| && i <= |q.locals|
    decreases |q.locals| - i
  {
    if i == |q.locals| then Some(([], []))
    else
      var l, r := Used(q.locals[i], mambas[i]), Used(q.remotes[i], mambas[i]);
      if |l| < |r| then None
      else
        match Matched(q, mambas, perBlock, i + 1)
        case None => None
        case Some(rest) => Some(([Kernel(Suffix(l, |r|), mambas[i], perBlock)] + rest.0, [Kernel(r, mambas[i], perBlock)] + rest.1))
  }

  function AllEmpty(groups: seq<seq<nat>>): bool {
    if groups == [] then true else groups[0] == [] && AllEmpty(groups[1..])
  }

  /** Every group that is looked at has a cache spec. */
  predicate SpecsGiven(q: Request, mambas: seq<bool>) {
    !AllEmpty(q.remotes) && |q.locals| == |q.remotes| ==> |q.locals| <= |mambas|
  }

  function Resolve(q: Request, mambas: seq<bool>, perBlock: nat): Outcome
    requires SpecsGiven(q, mambas)
  {
    if AllEmpty(q.remotes) then Skipped
    else if |q.locals| != |q.remotes| then Mismatched
    else
      match Matched(q, mambas, perBlock, 0)
      case None => Mismatched
      case Some(m) => if AllEmpty(m.0) then Skipped else Copies(m.0, m.1)
  }

  lemma KernelLength(a: seq<nat>, b: seq<nat>, mamba: bool, perBlock: nat)
    requires |a| == |b|
    ensures |Kernel(a, mamba, perBlock)| == |Kernel(b, mamba, perBlock)|
  {
  }

  ghost predicate Paired(ls: seq<seq<nat>>, rs: seq<seq<nat>>) {
    |ls| == |rs| && forall i :: 0 <= i < |ls| ==> |ls[i]| == |rs[i]|
  }

  lemma {:induction false} MatchedPairs(q: Request, mambas: seq<bool>, perBlock: nat, i: nat)
    requires |q.locals| == |q.remotes| <= |mambas| && i <= |q.locals|
    ensures var m := Matched(q, mambas, perBlock, i);
      m.Some? ==> Paired(m.value.0, m.value.1) && |m.value.0| == |q.locals| - i
    decreases |q.locals| - i
  {
    hide Kernel, Used;
    if i < |q.locals| {
      MatchedPairs(q, mambas, perBlock, i + 1);
      var l, r := Used(q.locals[i], mambas[i]), Used(q.remotes[i], mambas[i]);
      if |l| >= |r| { KernelLength(Suffix(l, |r|), r, mambas[i], perBlock); }
    }
  }

  lemma ResolvePairs(q: Request, mambas: seq<bool>, perBlock: nat)
    requires SpecsGiven(q, mambas)
    ensures var o := Resolve(q, mambas, perBlock);
      o.Copies? ==> Paired(o.locals, o.remotes) && |o.locals| == |q.locals| == |q.remotes|
  {
    if !AllEmpty(q.remotes) && |q.locals| == |q.remotes| { MatchedPairs(q, mambas, perBlock, 0); }
  }

  lemma {:induction false} EmptyGroup(groups: seq<seq<nat>>, g: nat)
    requires AllEmpty(groups) && g < |groups|
    ensures groups[g] == []
  {
    if g > 0 { EmptyGroup(groups[1..], g - 1); }
  }

  lemma {:induction false} MatchedEnough(q: Request, mambas: seq<bool>, perBlock: nat, i: nat, g: nat)
    requires |q.locals| == |q.remotes| <= |mambas| && i <= g < |q.locals| && Matched(q, mambas, perBlock, i).Some?
    ensures |Used(q.locals[g], mambas[g])| >= |Used(q.remotes[g], mambas[g])|
    decreases g - i
  {
    hide Kernel, Used;
    if i < g { MatchedEnough(q, mambas, perBlock, i + 1, g); }
  }

  /** A request that is not refused has, in every group, at least the consumer's blocks. */
  lemma ResolvedEnough(q: Request, mambas: seq<bool>, perBlock: nat, g: nat)
    requires SpecsGiven(q, mambas) && !Resolve(q, mambas, perBlock).Mismatched? && g < |q.remotes| && g < |q.locals| && g < |mambas|
    ensures |Used(q.locals[g], mambas[g])| >= |Used(q.remotes[g], mambas[g])|
  {
    if AllEmpty(q.remotes) {
      EmptyGroup(q.remotes, g);
    } else {
      MatchedEnough(q, mambas, perBlock, 0, g);
    }
  }

  // ----- Which blocks are matched -----

  /** Null blocks drop out, the others keep their order. */
  lemma {:induction false} NonNullParts(a: seq<nat>, b: seq<nat>)
    ensures NonNull(a + b) == NonNull(a) + NonNull(b)
    decreases |a|
  {
    if a == [] {
      assert a + b == b;
    } else {
      assert (a + b)[1..] == a[1..] + b;
      NonNullParts(a[1..], b);
    }
  }

  lemma NonNullOne(id: nat)
    ensures NonNull([id]) == if id == 0 then [] else [id]
  {
  }

  lemma UsedIs(ids: seq<nat>, mamba: bool)
    ensures Used(ids, mamba) == if mamba then NonNull(ids) else ids
  {
  }

  /** Kernel blocks per logical block of a group. */
  function Width(mamba: bool, perBlock: nat): nat { if mamba then 1 else perBlock }

  lemma {:induction false} KernelIdsAt(ids: seq<nat>, perBlock: nat, k: nat, f: nat)
    requires k < |ids| && f < perBlock
    ensures k * perBlock + f < |ids| * perBlock && KernelIds(ids, perBlock)[k * perBlock + f] == ids[k] * perBlock + f
  {
    MulNext(k, perBlock);
    MulMonotone(k + 1, |ids|, perBlock);
    if k > 0 {
      KernelIdsAt(ids[1..], perBlock, k - 1, f);
      MulNext(k - 1, perBlock);
      LaterKernel(ids, perBlock, (k - 1) * perBlock + f);
    }
  }

  lemma LaterKernel(ids: seq<nat>, perBlock: nat, t: nat)
    requires ids != [] && t < |ids[1..]| * perBlock
    ensures perBlock + t < |KernelIds(ids, perBlock)| && KernelIds(ids, perBlock)[perBlock + t] == KernelIds(ids[1..], perBlock)[t]
  {
  }

  lemma KernelAt(ids: seq<nat>, mamba: bool, perBlock: nat, k: nat, f: nat)
    requires k < |ids| && f < Width(mamba, perBlock)
    ensures var w, r := Width(mamba, perBlock), Kernel(ids, mamba, perBlock);
      |r| == |ids| * w && k * w + f < |r| && r[k * w + f] == ids[k] * w + f
  {
    hide KernelIds;
    if !mamba && perBlock != 1 { KernelIdsAt(ids, perBlock, k, f); }
  }

  lemma {:induction false} MatchedAt(q: Request, mambas: seq<bool>, perBlock: nat, i: nat, g: nat)
    requires |q.locals| == |q.remotes| <= |mambas| && i <= g < |q.locals| && Matched(q, mambas, perBlock, i).Some?
    ensures var m := Matched(q, mambas, perBlock, i).value;
      var l, r := Used(q.locals[g], mambas[g]), Used(q.remotes[g], mambas[g]);
      && |l| >= |r| && g - i < |m.0| && g - i < |m.1|
      && m.0[g - i] == Kernel(l[|l| - |r|..], mambas[g], perBlock) && m.1[g - i] == Kernel(r, mambas[g], perBlock)
    decreases g - i
  {
    hide Kernel, Used;
    if i < g { MatchedAt(q, mambas, perBlock, i + 1, g); }
  }

  /** What is copied where, in the request's own block ids: kernel block f of the consumer's
      k-th block from the end of a group is paired with kernel block f of the producer's k-th
      from the end.  Null blocks of Mamba groups do not count and Mamba blocks are not split. */
  lemma ResolvedContents(q: Request, mambas: seq<bool>, perBlock: nat, g: nat, k: nat, f: nat)
    requires SpecsGiven(q, mambas) && Resolve(q, mambas, perBlock).Copies?
    requires g < |q.remotes| && g < |mambas| && k < |Used(q.remotes[g], mambas[g])| && f < Width(mambas[g], perBlock)
    ensures var o, w := Resolve(q, mambas, perBlock), Width(mambas[g], perBlock);
      && g < |o.locals| == |o.remotes| == |q.locals| == |q.remotes|
      && var l, r := Used(q.locals[g], mambas[g]), Used(q.remotes[g], mambas[g]);
         && (if mambas[g] then l == NonNull(q.locals[g]) && r == NonNull(q.remotes[g]) else l == q.locals[g] && r == q.remotes[g])
         && |l| >= |r| && |o.locals[g]| == |o.remotes[g]| == |r| * w && k * w + f < |r| * w
         && o.remotes[g][k * w + f] == r[k] * w + f
         && o.locals[g][k * w + f] == l[|l| - |r| + k] * w + f
  {
    hide Kernel, Used, Matched;
    UsedIs(q.locals[g], mambas[g]);
    UsedIs(q.remotes[g], mambas[g]);
    ResolvePairs(q, mambas, perBlock);
    MatchedAt(q, mambas, perBlock, 0, g);
    var l, r := Used(q.locals[g], mambas[g]), Used(q.remotes[g], mambas[g]);
    KernelAt(l[|l| - |r|..], mambas[g], perBlock, k, f);
    KernelAt(r, mambas[g], perBlock, k, f);
  }

  lemma ResolvedSizes(q: Request, mambas: seq<bool>, perBlock: nat, g: nat)
    requires SpecsGiven(q, mambas) && Resolve(q, mambas, perBlock).Copies? && g < |Resolve(q, mambas, perBlock).remotes|
    ensures g < |q.remotes| && g < |mambas|
    ensures |Resolve(q, mambas, perBlock).remotes[g]| == |Used(q.remotes[g], mambas[g])| * Width(mambas[g], perBlock)
  {
    hide Used, Matched;
    ResolvePairs(q, mambas, perBlock);
    MatchedAt(q, mambas, perBlock, 0, g);
  }

  // ----- Which requests are copied -----

  /** As many groups on both sides, and at least the consumer's blocks in each. */
  ghost predicate EnoughBlocks(q: Request, mambas: seq<bool>) {
    |q.locals| == |q.remotes| <= |mambas| && forall g :: 0 <= g < |q.locals| ==> |Used(q.locals[g], mambas[g])| >= |Used(q.remotes[g], mambas[g])|
  }

  ghost predicate SomeBlock(q: Request, mambas: seq<bool>, perBlock: nat) {
    exists g :: 0 <= g < |q.remotes| && g < |mambas| && Used(q.remotes[g], mambas[g]) != [] && Width(mambas[g], perBlock) > 0
  }

  lemma {:induction false} MatchedExactly(q: Request, mambas: seq<bool>, perBlock: nat, i: nat)
    requires |q.locals| == |q.remotes| <= |mambas| && i <= |q.locals|
    ensures Matched(q, mambas, perBlock, i).Some? <==>
      forall g :: i <= g < |q.locals| ==> |Used(q.locals[g], mambas[g])| >= |Used(q.remotes[g], mambas[g])|
    decreases |q.locals| - i
  {
    hide Kernel, Used;
    if i < |q.locals| { MatchedExactly(q, mambas, perBlock, i + 1); }
  }

  lemma {:induction false} NotAllEmpty(groups: seq<seq<nat>>)
    ensures !AllEmpty(groups) <==> exists g :: 0 <= g < |groups| && groups[g] != []
  {
    if groups != [] {
      NotAllEmpty(groups[1..]);
      if g :| 0 <= g < |groups| && groups[g] != [] {
        if g > 0 { assert groups[1..][g - 1] != []; }
      }
    }
  }

  lemma KernelEmpty(ids: seq<nat>, mamba: bool, perBlock: nat)
    ensures Kernel(ids, mamba, perBlock) == [] <==> ids == [] || Width(mamba, perBlock) == 0
  {
    if !mamba && perBlock != 1 && ids != [] && perBlock > 0 { KernelIdsAt(ids, perBlock, 0, 0); }
  }

  lemma UsedEmpty(ids: seq<nat>, mamba: bool)
    ensures Used(ids, mamba) != [] ==> ids != []
  {
  }

  /** A request is refused exactly for a group count that differs or a group with too few
      producer blocks, unless the consumer names no block at all; and it is copied exactly
      when, beyond that, some block is left to copy. */
  lemma ResolvesExactly(q: Request, mambas: seq<bool>, perBlock: nat)
    requires SpecsGiven(q, mambas)
    ensures var o := Resolve(q, mambas, perBlock); var named := exists g :: 0 <= g < |q.remotes| && q.remotes[g] != [];
      && (o.Mismatched? <==> named && !EnoughBlocks(q, mambas))
      && (o.Copies? <==> named && EnoughBlocks(q, mambas) && SomeBlock(q, mambas, perBlock))
  {
    hide Kernel, Used, Matched, Width, AllEmpty;
    NotAllEmpty(q.remotes);
    if !AllEmpty(q.remotes) && |q.locals| == |q.remotes| {
      MatchedExactly(q, mambas, perBlock, 0);
      if EnoughBlocks(q, mambas) { MatchedLeft(q, mambas, perBlock); }
    }
  }

  lemma MatchedLeft(q: Request, mambas: seq<bool>, perBlock: nat)
    requires |q.locals| == |q.remotes| <= |mambas| && Matched(q, mambas, perBlock, 0).Some?
    ensures AllEmpty(Matched(q, mambas, perBlock, 0).value.0) <==> !SomeBlock(q, mambas, perBlock)
  {
    hide Kernel, Used, Matched, Width, AllEmpty;
    MatchedPairs(q, mambas, perBlock, 0);
    var m := Matched(q, mambas, perBlock, 0).value;
    NotAllEmpty(m.0);
    forall g | 0 <= g < |q.locals| ensures m.0[g] == [] <==> Used(q.remotes[g], mambas[g]) == [] || Width(mambas[g], perBlock) == 0 {
      MatchedAt(q, mambas, perBlock, 0, g);
      var l, r := Used(q.locals[g], mambas[g]), Used(q.remotes[g], mambas[g]);
      KernelEmpty(l[|l| - |r|..], mambas[g], perBlock);
    }
  }

  /** The copies of one region of a request, coalesced or block by block. */
  function RegionDescs(g: Region, o: Outcome, coalesced: bool): seq<Desc>
    requires o.Copies? ==> g.group < |o.locals| == |o.remotes| && |o.locals[g.group]| == |o.remotes[g.group]|
  {
    if !o.Copies? || o.locals[g.group] == [] || !g.plan.send then []
    else if coalesced then Emitted(g, o.locals[g.group], o.remotes[g.group])
    else Naive(g, o.locals[g.group], o.remotes[g.group])
  }

  ghost predicate Fits(regions: seq<Region>, o: Outcome) {
    o.Copies? ==> Paired(o.locals, o.remotes) && forall k :: 0 <= k < |regions| ==> regions[k].group < |o.locals|
  }

  ghost function RequestDescs(regions: seq<Region>, o: Outcome, coalesced: bool): seq<Desc>
    requires Fits(regions, o)
  {
    if regions == [] then []
    else
      var n := |regions| - 1;
      RequestDescs(regions[..n], o, coalesced) + RegionDescs(regions[n], o, coalesced)
  }

  ghost predicate AllFit(regions: seq<Region>, os: seq<Outcome>) {
    forall k :: 0 <= k < |os| ==> Fits(regions, os[k])
  }

  ghost function TransferDescs(regions: seq<Region>, os: seq<Outcome>, coalesced: bool): seq<Desc>
    requires AllFit(regions, os)
  {
    if os == [] then []
    else
      var n := |os| - 1;
      TransferDescs(regions, os[..n], coalesced) + RequestDescs(regions, os[n], coalesced)
  }

  lemma RegionRefines(g: Region, o: Outcome, source: int -> int, m: Memory)
    requires o.Copies? ==> g.group < |o.locals| == |o.remotes| && |o.locals[g.group]| == |o.remotes[g.group]|
    ensures Execute(RegionDescs(g, o, true), source, m) == Execute(RegionDescs(g, o, false), source, m)
  {
    hide Execute, Emitted, Naive;
    if o.Copies? { EmittedRefines(g, o.locals[g.group], o.remotes[g.group], source, m); }
  }

  lemma {:induction false} RequestRefines(regions: seq<Region>, o: Outcome, source: int -> int, m: Memory)
    requires Fits(regions, o)
    ensures Execute(RequestDescs(regions, o, true), source, m) == Execute(RequestDescs(regions, o, false), source, m)
  {
    hide Execute, RegionDescs;
    if regions != [] {
      var n := |regions| - 1;
      RequestRefines(regions[..n], o, source, m);
      ExecuteAppend(RequestDescs(regions[..n], o, true), RegionDescs(regions[n], o, true), source, m);
      ExecuteAppend(RequestDescs(regions[..n], o, false), RegionDescs(regions[n], o, false), source, m);
      RegionRefines(regions[n], o, source, Execute(RequestDescs(regions[..n], o, true), source, m));
    }
  }

  /** All descriptors of a transfer leave the bytes the block-by-block copies leave. */
  lemma {:induction false} TransferRefines(regions: seq<Region>, os: seq<Outcome>, source: int -> int, m: Memory)
    requires AllFit(regions, os)
    ensures Execute(TransferDescs(regions, os, true), source, m) == Execute(TransferDescs(regions, os, false), source, m)
  {
    hide Execute, RequestDescs, Fits;
    if os != [] {
      var n := |os| - 1;
      TransferRefines(regions, os[..n], source, m);
      ExecuteAppend(TransferDescs(regions, os[..n], true), RequestDescs(regions, os[n], true), source, m);
      ExecuteAppend(TransferDescs(regions, os[..n], false), RequestDescs(regions, os[n], false), source, m);
      RequestRefines(regions, os[n], source, Execute(TransferDescs(regions, os[..n], true), source, m));
    }
  }

  // ----- The emission loops -----

  method EmitGroup(g: Region, ls: seq<nat>, rs: seq<nat>) returns (ds: seq<Desc>)
    requires |ls| == |rs| && ls != []
    ensures ds == GroupDescs(g, ls, rs)
  {
    if g.CanCoalesce() {
      return [Desc(g.localBase + ls[0] * g.localLen + g.plan.src, g.remoteBase + rs[0] * g.remoteLen + g.plan.dst, g.plan.len * |ls|)];
    }
    ds := [];
    var i := 0;
    while i < |ls|
      invariant 0 <= i <= |ls|
      invariant ds + Naive(g, ls[i..], rs[i..]) == Naive(g, ls, rs)
    {
      assert ls[i..][1..] == ls[i + 1..] && rs[i..][1..] == rs[i + 1..];
      ds := ds + [g.Block(ls[i], rs[i])];
      i := i + 1;
    }
  }

  method EmitRegion(g: Region, ls: seq<nat>, rs: seq<nat>) returns (ds: seq<Desc>)
    requires |ls| == |rs|
    ensures ds == Emitted(g, ls, rs)
  {
    hide GroupDescs, RunLength;
    ds := [];
    var i := 0;
    while i < |ls|
      invariant 0 <= i <= |ls|
      invariant ds + Emitted(g, ls[i..], rs[i..]) == Emitted(g, ls, rs)
    {
      var la, ra := ls[i..], rs[i..];
      var k := RunLength(la, ra);
      var group := EmitGroup(g, la[..k], ra[..k]);
      assert la[k..] == ls[i + k..] && ra[k..] == rs[i + k..];
      ds := ds + group;
      i := i + k;
    }
  }

  /** What becomes of each request. */
  function Outcomes(requests: seq<Request>, mambas: seq<bool>, perBlock: nat): (os: seq<Outcome>)
    requires forall k :: 0 <= k < |requests| ==> SpecsGiven(requests[k], mambas)
    ensures |os| == |requests|
  {
    seq(|requests|, k requires 0 <= k < |requests| => Resolve(requests[k], mambas, perBlock))
  }

  function AllPlanned(pairs: seq<RegionPair>, t: Ranks): (regions: seq<Region>)
    requires t.Valid()
    ensures |regions| == |pairs|
  {
    seq(|pairs|, j requires 0 <= j < |pairs| => pairs[j].Planned(t))
  }

  /** The connector's assertions on one tensor of a request it copies: its group exists
      and, when blocks of it are copied, the plan exists and stays inside both blocks. */
  predicate PairSound(w: RegionPair, t: Ranks, o: Outcome)
    requires t.Valid() && o.Copies?
  {
    w.group < |o.locals| && (o.locals[w.group] != [] ==> InBounds(w.PlanOf(t), w.localKv, w.remoteKv))
  }

  ghost predicate RequestSound(pairs: seq<RegionPair>, t: Ranks, o: Outcome)
    requires t.Valid()
  {
    o.Copies? ==> forall j :: 0 <= j < |pairs| ==> PairSound(pairs[j], t, o)
  }

  lemma SoundFits(pairs: seq<RegionPair>, t: Ranks, o: Outcome)
    requires t.Valid() && RequestSound(pairs, t, o) && (o.Copies? ==> Paired(o.locals, o.remotes))
    ensures Fits(AllPlanned(pairs, t), o)
  {
    hide Paired;
    if o.Copies? {
      forall j | 0 <= j < |pairs| ensures AllPlanned(pairs, t)[j].group < |o.locals| {
        assert PairSound(pairs[j], t, o);
      }
    }
  }

  lemma PlannedPrefix(pairs: seq<RegionPair>, t: Ranks, j: nat)
    requires t.Valid() && j < |pairs|
    ensures AllPlanned(pairs[..j + 1], t)[..j] == AllPlanned(pairs[..j], t)
    ensures AllPlanned(pairs[..j + 1], t)[j] == pairs[j].Planned(t)
  {
  }

  lemma NextPair(pairs: seq<RegionPair>, t: Ranks, o: Outcome, j: nat)
    requires t.Valid() && j < |pairs| && o.Copies? && Paired(o.locals, o.remotes)
    requires RequestSound(pairs[..j], t, o) && PairSound(pairs[j], t, o) && Fits(AllPlanned(pairs[..j], t), o)
    ensures RequestSound(pairs[..j + 1], t, o) && Fits(AllPlanned(pairs[..j + 1], t), o)
    ensures RequestDescs(AllPlanned(pairs[..j + 1], t), o, true)
         == RequestDescs(AllPlanned(pairs[..j], t), o, true) + RegionDescs(pairs[j].Planned(t), o, true)
  {
    var next := pairs[..j + 1];
    assert RequestSound(next, t, o) by {
      forall i | 0 <= i < |next| ensures PairSound(next[i], t, o) { if i < j { assert PairSound(pairs[..j][i], t, o); } }
    }
    SoundFits(next, t, o);
    PlannedPrefix(pairs, t, j);
    hide RegionDescs, PairSound, AllPlanned;
  }

  lemma {:induction false} NothingCopied(regions: seq<Region>, o: Outcome)
    requires !o.Copies?
    ensures Fits(regions, o) && RequestDescs(regions, o, true) == []
  {
    if regions != [] { NothingCopied(regions[..|regions| - 1], o); }
  }

  /** `_build_transfer_params_sync`; `ok` is false when an assertion fails. */
  method BuildTransferParams(requests: seq<Request>, pairs: seq<RegionPair>, t: Ranks, mambas: seq<bool>, perBlock: nat)
    returns (ok: bool, ds: seq<Desc>, errors: seq<nat>)
    requires t.Valid() && forall k :: 0 <= k < |requests| ==> SpecsGiven(requests[k], mambas)
    ensures var os := Outcomes(requests, mambas, perBlock);
      && (ok <==> forall k :: 0 <= k < |os| ==> RequestSound(pairs, t, os[k]))
      && (ok ==> AllFit(AllPlanned(pairs, t), os) && ds == TransferDescs(AllPlanned(pairs, t), os, true))
      && (ok ==> forall k: nat :: k in errors <==> k < |os| && os[k].Mismatched?)
  {
    hide Resolve, RegionDescs, Emitted, RequestDescs, Fits, SpecsGiven, RequestSound, AllPlanned;
    ghost var os, regions := Outcomes(requests, mambas, perBlock), AllPlanned(pairs, t);
    ok, ds, errors := true, [], [];
    var k := 0;
    while k < |requests|
      invariant 0 <= k <= |requests| && AllFit(regions, os[..k])
      invariant forall i :: 0 <= i < k ==> RequestSound(pairs, t, os[i])
      invariant ok && ds == TransferDescs(regions, os[..k], true)
      invariant forall i: nat :: i in errors <==> i < k && os[i].Mismatched?
    {
      var o := Resolve(requests[k], mambas, perBlock);
      assert o == os[k];
      if o.Mismatched? { errors := errors + [k]; }
      ResolvePairs(requests[k], mambas, perBlock);
      var sound, more := EmitRequest(pairs, t, o);
      if !sound { return false, [], []; }
      assert os[..k + 1][..k] == os[..k];
      ds := ds + more;
      k := k + 1;
    }
    assert os[..k] == os;
  }

  /** The copies of one request, or the failure of an assertion about it. */
  method EmitRequest(pairs: seq<RegionPair>, t: Ranks, o: Outcome) returns (ok: bool, ds: seq<Desc>)
    requires t.Valid() && (o.Copies? ==> Paired(o.locals, o.remotes))
    ensures ok <==> RequestSound(pairs, t, o)
    ensures ok ==> Fits(AllPlanned(pairs, t), o) && ds == RequestDescs(AllPlanned(pairs, t), o, true)
  {
    hide RegionDescs, PairSound, Fits;
    ds := [];
    if !o.Copies? {
      NothingCopied(AllPlanned(pairs, t), o);
      return true, [];
    }
    SoundFits([], t, o);
    var j := 0;
    while j < |pairs|
      invariant 0 <= j <= |pairs| && RequestSound(pairs[..j], t, o)
      invariant Fits(AllPlanned(pairs[..j], t), o) && ds == RequestDescs(AllPlanned(pairs[..j], t), o, true)
    {
      var sound, more := EmitPair(pairs[j], t, o);
      if !sound { return false, []; }
      NextPair(pairs, t, o, j);
      ds := ds + more;
      j := j + 1;
    }
    assert pairs[..j] == pairs;
    ok := true;
  }

  method EmitPair(w: RegionPair, t: Ranks, o: Outcome) returns (ok: bool, ds: seq<Desc>)
    requires t.Valid() && o.Copies? && Paired(o.locals, o.remotes)
    ensures ok <==> PairSound(w, t, o)
    ensures ok ==> ds == RegionDescs(w.Planned(t), o, true)
  {
    hide Emitted;
    if w.group >= |o.locals| { return false, []; }
    if o.locals[w.group] == [] { return true, []; }
    match w.PlanOf(t)
    case None => return false, [];
    case Some(plan) =>
      if !plan.send { return true, []; }
      if plan.src + plan.len > w.localKv || plan.dst + plan.len > w.remoteKv { return false, []; }
      ds := EmitRegion(w.Planned(t), o.locals[w.group], o.remotes[w.group]);
      return true, ds;
  }
}
