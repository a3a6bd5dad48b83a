/** What a whole raw transfer leaves on the consumer.  The descriptors that all paired
    producers send, coalesced and in whatever order they arrive, fill every block of
    the consumer with the bytes of its own KV heads. */
module ConsumerBlocks {
  import opened Wrappers
  import opened Powers
  import opened TransferPlan
  import opened BlockCopies

  // ----- Which byte goes where -----

  predicate Covers(d: Desc, a: int) { d.dst <= a < d.dst + d.len }

  /** The source address of the byte that the copy puts at a. */
  function Origin(d: Desc, a: int): int { d.src + (a - d.dst) }

  /** Some copy of the list puts the byte at source address s at a. */
  ghost predicate Moves(ds: seq<Desc>, s: int, a: int) {
    exists d :: d in ds && Covers(d, a) && Origin(d, a) == s
  }

  lemma MovesAppend(x: seq<Desc>, y: seq<Desc>, s: int, a: int)
    ensures Moves(x + y, s, a) <==> Moves(x, s, a) || Moves(y, s, a)
  {
    hide Covers, Origin;
    if Moves(x, s, a) {
      var d :| d in x && Covers(d, a) && Origin(d, a) == s;
      assert d in x + y;
    }
    if Moves(y, s, a) {
      var d :| d in y && Covers(d, a) && Origin(d, a) == s;
      assert d in x + y;
    }
  }

  lemma MovesOne(d: Desc, s: int, a: int)
    ensures Moves([d], s, a) <==> Covers(d, a) && Origin(d, a) == s
  {
    assert d in [d];
  }

  /** A contiguous run moves the same bytes as one copy. */
  lemma {:induction false} RunMoves(g: Region, ls: seq<nat>, rs: seq<nat>, s: int, a: int)
    requires |ls| == |rs| && ls != [] && Contiguous(ls) && Contiguous(rs) && g.CanCoalesce()
    ensures var d := Desc(g.localBase + ls[0] * g.localLen, g.remoteBase + rs[0] * g.remoteLen, g.plan.len * |ls|);
      Moves(Naive(g, ls, rs), s, a) <==> Covers(d, a) && Origin(d, a) == s
    decreases |ls|
  {
    hide Moves, Naive;
    var n := |ls| - 1;
    if n == 0 {
      assert Naive(g, ls, rs) == [g.Block(ls[0], rs[0])] by { OneNaive(g, ls, rs); }
      MovesOne(g.Block(ls[0], rs[0]), s, a);
    } else {
      var la, ra := ls[..n], rs[..n];
      assert ls == la + [ls[n]] && rs == ra + [rs[n]];
      RunMoves(g, la, ra, s, a);
      NaiveLast(g, la, ra, ls[n], rs[n]);
      MovesAppend(Naive(g, la, ra), [g.Block(ls[n], rs[n])], s, a);
      MovesOne(g.Block(ls[n], rs[n]), s, a);
      LastOfRun(ls);
      LastOfRun(rs);
      NextMoves(g, ls[0], rs[0], n, s, a);
    }
  }

  lemma OneNaive(g: Region, ls: seq<nat>, rs: seq<nat>)
    requires |ls| == |rs| == 1
    ensures Naive(g, ls, rs) == [g.Block(ls[0], rs[0])]
  {
  }

  lemma NextMoves(g: Region, l: nat, r: nat, n: nat, s: int, a: int)
    requires g.CanCoalesce()
    ensures var t := g.plan.len;
      var x, y, z := Desc(g.localBase + l * g.localLen, g.remoteBase + r * g.remoteLen, t * n), g.Block(l + n, r + n),
                     Desc(g.localBase + l * g.localLen, g.remoteBase + r * g.remoteLen, t * (n + 1));
      (Covers(x, a) && Origin(x, a) == s) || (Covers(y, a) && Origin(y, a) == s) <==> Covers(z, a) && Origin(z, a) == s
  {
    var t := g.plan.len;
    Advance(l, n, t);
    Advance(r, n, t);
    var u, v, w := g.localBase + l * t, g.remoteBase + r * t, t * n;
    assert g.Block(l + n, r + n) == Desc(u + w, v + w, t);
    assert t * (n + 1) == w + t;
  }

  lemma GroupMoves(g: Region, ls: seq<nat>, rs: seq<nat>, s: int, a: int)
    requires |ls| == |rs| && ls != [] && Contiguous(ls) && Contiguous(rs)
    ensures Moves(GroupDescs(g, ls, rs), s, a) <==> Moves(Naive(g, ls, rs), s, a)
  {
    hide Moves, Naive;
    if g.CanCoalesce() {
      RunMoves(g, ls, rs, s, a);
      MovesOne(GroupDescs(g, ls, rs)[0], s, a);
    }
  }

  lemma {:induction false} EmittedMoves(g: Region, ls: seq<nat>, rs: seq<nat>, s: int, a: int)
    requires |ls| == |rs|
    ensures Moves(Emitted(g, ls, rs), s, a) <==> Moves(Naive(g, ls, rs), s, a)
    decreases |ls|
  {
    if ls != [] {
      var k := RunLength(ls, rs);
      RunIsMaximal(ls, rs);
      hide GroupDescs, Naive, RunLength, Moves;
      var la, ra, lb, rb := ls[..k], rs[..k], ls[k..], rs[k..];
      assert Contiguous(la) by { forall i | 0 < i < |la| ensures la[i] == la[i - 1] + 1 { assert !Breaks(ls, rs, i); } }
      assert Contiguous(ra) by { forall i | 0 < i < |ra| ensures ra[i] == ra[i - 1] + 1 { assert !Breaks(ls, rs, i); } }
      assert ls == la + lb && rs == ra + rb;
      NaiveAppend(g, la, ra, lb, rb);
      MovesAppend(GroupDescs(g, la, ra), Emitted(g, lb, rb), s, a);
      MovesAppend(Naive(g, la, ra), Naive(g, lb, rb), s, a);
      GroupMoves(g, la, ra, s, a);
      EmittedMoves(g, lb, rb, s, a);
    }
  }

  /** The copy of block i, or none when the region is not sent. */
  ghost predicate BlockMoves(g: Region, ls: seq<nat>, rs: seq<nat>, s: int, a: int, i: nat)
    requires |ls| == |rs|
  {
    i < |ls| && g.plan.send && Covers(g.Block(ls[i], rs[i]), a) && Origin(g.Block(ls[i], rs[i]), a) == s
  }

  lemma {:induction false} NaiveMoves(g: Region, ls: seq<nat>, rs: seq<nat>, s: int, a: int)
    requires |ls| == |rs| && g.plan.send
    ensures Moves(Naive(g, ls, rs), s, a) <==> exists i :: BlockMoves(g, ls, rs, s, a, i)
  {
    if ls != [] {
      NaiveMoves(g, ls[1..], rs[1..], s, a);
      MovesAppend([g.Block(ls[0], rs[0])], Naive(g, ls[1..], rs[1..]), s, a);
      MovesOne(g.Block(ls[0], rs[0]), s, a);
      FirstOrLater(g, ls, rs, s, a);
    }
  }

  lemma FirstOrLater(g: Region, ls: seq<nat>, rs: seq<nat>, s: int, a: int)
    requires |ls| == |rs| && ls != []
    ensures (exists i :: BlockMoves(g, ls, rs, s, a, i)) <==>
      BlockMoves(g, ls, rs, s, a, 0) || exists i :: BlockMoves(g, ls[1..], rs[1..], s, a, i)
  {
    hide Covers, Origin;
    if i: nat :| BlockMoves(g, ls, rs, s, a, i) {
      if i > 0 { assert BlockMoves(g, ls[1..], rs[1..], s, a, i - 1); }
    }
    if i: nat :| BlockMoves(g, ls[1..], rs[1..], s, a, i) {
      assert ls[1..][i] == ls[i + 1] && rs[1..][i] == rs[i + 1];
      assert BlockMoves(g, ls, rs, s, a, i + 1);
    }
  }

  /** Request k copies block i of tensor j and moves byte s to a. */
  ghost predicate CopyMoves(regions: seq<Region>, os: seq<Outcome>, k: nat, j: nat, i: nat, s: int, a: int)
    requires AllFit(regions, os)
  {
    && k < |os| && os[k].Copies? && j < |regions|
    && var g := regions[j]; BlockMoves(g, os[k].locals[g.group], os[k].remotes[g.group], s, a, i)
  }

  lemma RegionMoves(g: Region, o: Outcome, s: int, a: int)
    requires o.Copies? ==> g.group < |o.locals| == |o.remotes| && |o.locals[g.group]| == |o.remotes[g.group]|
    ensures Moves(RegionDescs(g, o, true), s, a) <==>
      o.Copies? && exists i :: BlockMoves(g, o.locals[g.group], o.remotes[g.group], s, a, i)
  {
    hide Emitted, Naive, Covers, Origin;
    if o.Copies? && g.plan.send {
      EmittedMoves(g, o.locals[g.group], o.remotes[g.group], s, a);
      NaiveMoves(g, o.locals[g.group], o.remotes[g.group], s, a);
    }
  }

  ghost predicate RequestCopies(regions: seq<Region>, o: Outcome, j: nat, s: int, a: int)
    requires Fits(regions, o)
  {
    j < |regions| && Moves(RegionDescs(regions[j], o, true), s, a)
  }

  lemma {:induction false} RequestMoves(regions: seq<Region>, o: Outcome, s: int, a: int)
    requires Fits(regions, o)
    ensures Moves(RequestDescs(regions, o, true), s, a) <==> exists j :: RequestCopies(regions, o, j, s, a)
  {
    hide RegionDescs, Moves;
    if regions == [] {
      NoMoves(s, a);
    } else {
      var n := |regions| - 1;
      var init := regions[..n];
      RequestMoves(init, o, s, a);
      MovesAppend(RequestDescs(init, o, true), RegionDescs(regions[n], o, true), s, a);
      if j: nat :| RequestCopies(regions, o, j, s, a) {
        if j < n { assert RequestCopies(init, o, j, s, a); }
      }
      if j: nat :| RequestCopies(init, o, j, s, a) { assert RequestCopies(regions, o, j, s, a); }
      if Moves(RegionDescs(regions[n], o, true), s, a) { assert RequestCopies(regions, o, n, s, a); }
    }
  }

  lemma NoMoves(s: int, a: int)
    ensures !Moves([], s, a)
  {
  }

  ghost predicate TransferCopies(regions: seq<Region>, os: seq<Outcome>, k: nat, s: int, a: int)
    requires AllFit(regions, os)
  {
    k < |os| && Moves(RequestDescs(regions, os[k], true), s, a)
  }

  lemma {:induction false} RequestsMove(regions: seq<Region>, os: seq<Outcome>, s: int, a: int)
    requires AllFit(regions, os)
    ensures Moves(TransferDescs(regions, os, true), s, a) <==> exists k :: TransferCopies(regions, os, k, s, a)
  {
    hide RequestDescs, Moves, Fits;
    if os == [] {
      NoMoves(s, a);
    } else {
      var n := |os| - 1;
      var init := os[..n];
      RequestsMove(regions, init, s, a);
      MovesAppend(TransferDescs(regions, init, true), RequestDescs(regions, os[n], true), s, a);
      if k: nat :| TransferCopies(regions, os, k, s, a) {
        if k < n { assert TransferCopies(regions, init, k, s, a); }
      }
      if k: nat :| TransferCopies(regions, init, k, s, a) { assert TransferCopies(regions, os, k, s, a); }
      if Moves(RequestDescs(regions, os[n], true), s, a) { assert TransferCopies(regions, os, n, s, a); }
    }
  }

  /** The descriptors of a transfer move a byte exactly when a block copy of it does. */
  lemma TransferMoves(regions: seq<Region>, os: seq<Outcome>, s: int, a: int)
    requires AllFit(regions, os)
    ensures Moves(TransferDescs(regions, os, true), s, a) <==> exists k, j, i :: CopyMoves(regions, os, k, j, i, s, a)
  {
    hide RequestDescs, RegionDescs, TransferDescs, Moves, BlockMoves;
    RequestsMove(regions, os, s, a);
    if k: nat :| TransferCopies(regions, os, k, s, a) {
      RequestMoves(regions, os[k], s, a);
      var j: nat :| RequestCopies(regions, os[k], j, s, a);
      RegionMoves(regions[j], os[k], s, a);
      var i: nat :| BlockMoves(regions[j], os[k].locals[regions[j].group], os[k].remotes[regions[j].group], s, a, i);
      assert CopyMoves(regions, os, k, j, i, s, a);
    }
    if k: nat, j: nat, i: nat :| CopyMoves(regions, os, k, j, i, s, a) {
      RequestMoves(regions, os[k], s, a);
      RegionMoves(regions[j], os[k], s, a);
      assert RequestCopies(regions, os[k], j, s, a);
      assert TransferCopies(regions, os, k, s, a);
    }
  }

  // ----- Descriptors of several producers, in any order -----

  /** A descriptor as it reaches the consumer's memory, with the rank that sent it. */
  datatype Arrival = Arrival(desc: Desc, from: nat)

  function Deliver(arrivals: seq<Arrival>, sources: nat -> int -> int, m: Memory): Memory {
    if arrivals == [] then m
    else Deliver(arrivals[1..], sources, Copy(arrivals[0].desc, sources(arrivals[0].from), m))
  }

  ghost predicate Holds(m: Memory, a: int, v: int) { a in m && m[a] == v }

  /** Every arrival that covers the address brings the same value. */
  ghost predicate Brings(arrivals: seq<Arrival>, sources: nat -> int -> int, a: int, v: int) {
    forall x :: x in arrivals && Covers(x.desc, a) ==> sources(x.from)(Origin(x.desc, a)) == v
  }

  ghost predicate Touched(arrivals: seq<Arrival>, a: int) {
    exists x :: x in arrivals && Covers(x.desc, a)
  }

  lemma {:induction false} DeliverBrings(arrivals: seq<Arrival>, sources: nat -> int -> int, m: Memory, a: int, v: int)
    requires Brings(arrivals, sources, a, v) && (Touched(arrivals, a) || Holds(m, a, v))
    ensures Holds(Deliver(arrivals, sources, m), a, v)
    decreases |arrivals|
  {
    hide Copy;
    if arrivals != [] {
      var x := arrivals[0];
      CopyAt(x.desc, sources(x.from), m, a);
      assert Covers(x.desc, a) ==> sources(x.from)(Origin(x.desc, a)) == v;
      assert arrivals == [x] + arrivals[1..];
      DeliverBrings(arrivals[1..], sources, Copy(x.desc, sources(x.from), m), a, v);
    }
  }

  lemma {:induction false} DeliverElsewhere(arrivals: seq<Arrival>, sources: nat -> int -> int, m: Memory, a: int)
    requires !Touched(arrivals, a)
    ensures var r := Deliver(arrivals, sources, m); (a in r <==> a in m) && (a in r ==> r[a] == m[a])
    decreases |arrivals|
  {
    hide Copy;
    if arrivals != [] {
      var x := arrivals[0];
      assert x in arrivals;
      CopyAt(x.desc, sources(x.from), m, a);
      DeliverElsewhere(arrivals[1..], sources, Copy(x.desc, sources(x.from), m), a);
    }
  }

  // ----- The consumer and its producers -----

  /** A registered tensor of the consumer; `unit` is the bytes of one head in a kernel block. */
  datatype Target = Target(group: nat, base: int, len: nat, unit: nat)

  /** `remotes` holds the block ids of every request, per group. */
  datatype Consumer = Consumer(
    rank: nat, size: nat, targets: seq<Target>, remotes: seq<seq<seq<nat>>>, mambas: seq<bool>, perBlock: nat)
  {
    predicate HasGroup(k: nat, g: nat) { k < |remotes| && g < |remotes[k]| && g < |mambas| }

    /** The blocks of a group that carry state. */
    function Ids(k: nat, g: nat): seq<nat>
      requires HasGroup(k, g)
    {
      Used(remotes[k][g], mambas[g])
    }

    /** Kernel blocks per block of a group. */
    function Parts(g: nat): nat
      requires g < |mambas|
    {
      Width(mambas[g], perBlock)
    }
  }

  /** Byte b of kernel block f of the i-th block of request k in tensor j. */
  datatype Place = Place(k: nat, j: nat, i: nat, f: nat, b: nat)

  ghost predicate Exists(q: Consumer, x: Place) {
    && x.j < |q.targets| && q.HasGroup(x.k, q.targets[x.j].group)
    && x.i < |q.Ids(x.k, q.targets[x.j].group)| && x.f < q.Parts(q.targets[x.j].group)
  }

  /** The byte belongs to the KV heads that this rank holds. */
  ghost predicate InBlock(q: Consumer, heads: nat, x: Place)
    requires q.size > 0
  {
    Exists(q, x) && x.b < Times(HeadCount(q.size, heads), q.targets[x.j].unit)
  }

  function Start(base: int, id: nat, len: nat): int { base + id * len }

  ghost function Address(q: Consumer, x: Place): int
    requires Exists(q, x)
  {
    var t := q.targets[x.j]; Start(t.base, q.Ids(x.k, t.group)[x.i] * q.Parts(t.group) + x.f, t.len) + x.b
  }

  /** No two bytes of the consumer's blocks share an address. */
  ghost predicate Separate(q: Consumer, heads: nat)
    requires q.size > 0
  {
    forall x, y :: InBlock(q, heads, x) && InBlock(q, heads, y) && Address(q, x) == Address(q, y) ==> x == y
  }

  /** What one producer rank sends from; `locals` holds its block ids of every request. */
  datatype Producer = Producer(pairs: seq<RegionPair>, locals: seq<seq<seq<nat>>>, source: int -> int)

  /** The producers of a transfer: `size` ranks, each as `at` says, of a model with `heads`
      KV heads.  `blocks` says how many blocks the sequence of a request fills in a group,
      and `content` is the cache itself: byte b of all heads of the sequence's i-th block. */
  datatype Producers = Producers(
    size: nat, heads: nat, at: nat -> Producer, blocks: (nat, nat) -> nat, content: Place -> int)
  {
    predicate Valid() { size > 0 && heads > 0 }
  }

  function RanksOf(ps: Producers, q: Consumer, p: nat): Ranks {
    Ranks(p, ps.size, q.rank, q.size, ps.size > ps.heads)
  }

  /** Producer p has the groups of every request and all blocks of its sequence. */
  ghost predicate HasSequences(ps: Producers, q: Consumer, p: nat) {
    var w := ps.at(p);
    && |w.locals| == |q.remotes|
    && (forall k :: 0 <= k < |q.remotes| ==> |w.locals[k]| == |q.remotes[k]| <= |q.mambas|)
    && forall k: nat, g: nat :: q.HasGroup(k, g) ==> |Used(w.locals[k][g], q.mambas[g])| == ps.blocks(k, g)
  }

  function RequestOf(ps: Producers, q: Consumer, p: nat, k: nat): Request
    requires k < |ps.at(p).locals| && k < |q.remotes|
  {
    Request(ps.at(p).locals[k], q.remotes[k])
  }

  /** What producer p makes of the consumer's requests. */
  ghost function OutcomesOf(ps: Producers, q: Consumer, p: nat): (os: seq<Outcome>)
    requires HasSequences(ps, q, p)
    ensures |os| == |q.remotes|
    ensures forall k :: 0 <= k < |os| ==> SpecsGiven(RequestOf(ps, q, p, k), q.mambas) && os[k] == Resolve(RequestOf(ps, q, p, k), q.mambas, q.perBlock)
  {
    var requests := seq(|q.remotes|, k requires 0 <= k < |q.remotes| && k < |ps.at(p).locals| => RequestOf(ps, q, p, k));
    Outcomes(requests, q.mambas, q.perBlock)
  }

  ghost function RegionsOf(ps: Producers, q: Consumer, p: nat): seq<Region>
    requires ps.Valid() && q.size > 0
  {
    AllPlanned(ps.at(p).pairs, RanksOf(ps, q, p))
  }

  /** Every copied request has the groups of the registered tensors. */
  ghost predicate Fitting(ps: Producers, q: Consumer, p: nat)
    requires ps.Valid() && q.size > 0
  {
    HasSequences(ps, q, p) && AllFit(RegionsOf(ps, q, p), OutcomesOf(ps, q, p))
  }

  /** The descriptors producer p sends to the consumer. */
  ghost function Sent(ps: Producers, q: Consumer, p: nat): seq<Desc>
    requires ps.Valid() && q.size > 0 && Fitting(ps, q, p)
  {
    TransferDescs(RegionsOf(ps, q, p), OutcomesOf(ps, q, p), true)
  }

  /** Tensor j of producer p matches the consumer's, with true block lengths. */
  ghost predicate Matches(w: RegionPair, t: Target, ps: Producers, q: Consumer)
    requires ps.Valid() && q.size > 0
  {
    && w.group == t.group && w.remoteBase == t.base && w.remoteLen == t.len
    && w.localKv == Times(HeadCount(ps.size, ps.heads), t.unit) && w.remoteKv == Times(HeadCount(q.size, ps.heads), t.unit)
  }

  ghost predicate TensorsMatch(ps: Producers, q: Consumer, p: nat)
    requires ps.Valid() && q.size > 0
  {
    var w := ps.at(p);
    |w.pairs| == |q.targets| && forall j :: 0 <= j < |w.pairs| ==> Matches(w.pairs[j], q.targets[j], ps, q)
  }

  /** Producer p holds the sequences: of each block, from its first head on, as many bytes
      as its heads take. */
  ghost predicate Serves(ps: Producers, q: Consumer, p: nat)
    requires ps.Valid() && q.size > 0
  {
    && Fitting(ps, q, p) && TensorsMatch(ps, q, p)
    && forall x :: Stored(ps, q, p, x) ==> ps.at(p).source(StoredAt(ps, q, p, x)) == ps.content(Global(ps, p, q, x))
  }

  /** Byte b of kernel block f of the i-th block of the sequence, on producer p. */
  ghost predicate Stored(ps: Producers, q: Consumer, p: nat, x: Place)
    requires ps.Valid()
  {
    && HasSequences(ps, q, p) && x.j < |q.targets| && x.j < |ps.at(p).pairs|
    && q.HasGroup(x.k, q.targets[x.j].group)
    && x.i < ps.blocks(x.k, q.targets[x.j].group) && x.f < q.Parts(q.targets[x.j].group)
    && x.b < Times(HeadCount(ps.size, ps.heads), q.targets[x.j].unit)
  }

  ghost function StoredAt(ps: Producers, q: Consumer, p: nat, x: Place): int
    requires ps.Valid() && Stored(ps, q, p, x)
  {
    var w, g := ps.at(p), q.targets[x.j].group;
    Start(w.pairs[x.j].localBase, Used(w.locals[x.k][g], q.mambas[g])[x.i] * q.Parts(g) + x.f, w.pairs[x.j].localLen) + x.b
  }

  /** The byte's place among all heads, counted on producer rank p. */
  ghost function Global(ps: Producers, p: nat, q: Consumer, x: Place): Place
    requires ps.Valid() && x.j < |q.targets|
  {
    x.(b := Times(HeadStart(p, ps.size, ps.heads), q.targets[x.j].unit) + x.b)
  }

  /** The sequence of request k fills at least the consumer's blocks in every group. */
  ghost predicate Enough(ps: Producers, q: Consumer, k: nat) {
    forall g: nat :: q.HasGroup(k, g) ==> ps.blocks(k, g) >= |q.Ids(k, g)|
  }

  /** The byte a place of the consumer is for: the consumer's blocks are the last ones of
      the sequence, and its bytes those of its own heads. */
  ghost function Wanted(ps: Producers, q: Consumer, x: Place): Place
    requires q.size > 0 && Exists(q, x) && Enough(ps, q, x.k)
  {
    var g := q.targets[x.j].group;
    x.(i := ps.blocks(x.k, g) - |q.Ids(x.k, g)| + x.i,
       b := Times(HeadStart(q.rank, q.size, ps.heads), q.targets[x.j].unit) + x.b)
  }

  ghost predicate Faces(ps: Producers, q: Consumer, p: nat)
    requires ps.Valid() && q.size > 0
  {
    p in TargetRanks(q.rank, q.size, ps.size)
  }

  /** The layouts nest, every paired producer serves, and the plan needs no head count. */
  ghost predicate Ready(ps: Producers, q: Consumer)
    requires ps.Valid() && q.size > 0
  {
    && Nesting(ps.size, q.size, ps.heads) && HeadCountUnneeded(ps.size, q.rank, q.size, ps.heads)
    && Separate(q, ps.heads) && (forall j :: 0 <= j < |q.targets| ==> q.targets[j].unit > 0)
    && forall p :: Faces(ps, q, p) ==> Serves(ps, q, p)
  }

  /** All descriptors of the paired producers and no others, in any order. */
  ghost predicate Complete(arrivals: seq<Arrival>, ps: Producers, q: Consumer)
    requires ps.Valid() && q.size > 0 && Ready(ps, q)
  {
    && (forall y :: y in arrivals ==> Faces(ps, q, y.from) && y.desc in Sent(ps, q, y.from))
    && (forall p, d :: Faces(ps, q, p) && d in Sent(ps, q, p) ==> Arrival(d, p) in arrivals)
  }

  function Sources(ps: Producers): nat -> int -> int { p => ps.at(p).source }

  // ----- Copies of one producer -----

  lemma SenderOf(local: nat, c: nat, remote: nat, heads: nat, unit: nat, b: nat) returns (s: nat)
    requires Nesting(local, remote, heads) && HeadCountUnneeded(local, c, remote, heads) && unit > 0
    requires b < Times(HeadCount(remote, heads), unit)
    ensures BareSender(s, local, c, remote, heads, unit, b)
  {
    hide BareSender, HeadCountUnneeded, Times, HeadCount;
    HeadCountDispensable(local, c, remote, heads, unit);
    assert BareSent(local, c, remote, heads, unit, b);
    s :| BareSender(s, local, c, remote, heads, unit, b);
  }

  /** The plan of producer p for tensor j copies bytes to where they belong, and byte b
      exactly when p is s. */
  ghost predicate PlanRight(ps: Producers, q: Consumer, p: nat, j: nat, b: nat, s: nat)
    requires ps.Valid() && q.size > 0 && j < |q.targets|
  {
    && j < |ps.at(p).pairs|
    && var plan := ps.at(p).pairs[j].PlanOf(RanksOf(ps, q, p));
       Right(plan, p, ps.size, q.rank, q.size, ps.heads, q.targets[j].unit, b, s)
  }

  lemma OneSends(ps: Producers, q: Consumer, j: nat, b: nat) returns (s: nat)
    requires ps.Valid() && q.size > 0 && Ready(ps, q) && j < |q.targets|
    requires b < Times(HeadCount(q.size, ps.heads), q.targets[j].unit)
    ensures Faces(ps, q, s) && forall p :: Faces(ps, q, p) ==> PlanRight(ps, q, p, j, b, s)
  {
    hide Right, Separate, Nesting, HeadCountUnneeded, Times, AllFit, BarePlan, HeadCount, Stored, TargetRanks;
    s := SenderOf(ps.size, q.rank, q.size, ps.heads, q.targets[j].unit, b);
    forall p | Faces(ps, q, p) ensures PlanRight(ps, q, p, j, b, s) {
      assert Serves(ps, q, p) && Matches(ps.at(p).pairs[j], q.targets[j], ps, q);
    }
  }

  lemma SomeByte(size: nat, heads: nat, unit: nat)
    requires size > 0 && unit > 0
    ensures Times(HeadCount(size, heads), unit) > 0
  {
    SlotFits(0, HeadCount(size, heads), unit);
  }

  lemma PlanFaithful(ps: Producers, q: Consumer, p: nat, j: nat)
    requires ps.Valid() && q.size > 0 && Ready(ps, q) && j < |q.targets| && Faces(ps, q, p)
    ensures j < |ps.at(p).pairs|
    ensures var plan := ps.at(p).pairs[j].PlanOf(RanksOf(ps, q, p));
      plan.Some? && (plan.value.send ==> Faithful(plan.value, p, ps.size, q.rank, q.size, ps.heads, q.targets[j].unit))
  {
    hide Faithful, Separate, Serves, Nesting, HeadCountUnneeded, Times, HeadCount, Faces, BarePlan;
    SomeByte(q.size, ps.heads, q.targets[j].unit);
    var s := OneSends(ps, q, j, 0);
    assert PlanRight(ps, q, p, j, 0, s);
  }

  /** One block copy with a faithful plan: where its bytes come from and belong. */
  lemma BlockByte(g: Region, l: nat, r: nat, p: nat, size: nat, c: nat, remote: nat, heads: nat, unit: nat, s: int, a: int)
    returns (b: nat, y: nat)
    requires size > 0 && remote > 0 && Faithful(g.plan, p, size, c, remote, heads, unit)
    requires Covers(g.Block(l, r), a) && Origin(g.Block(l, r), a) == s
    ensures a == Start(g.remoteBase, r, g.remoteLen) + b && s == Start(g.localBase, l, g.localLen) + y
    ensures b < Times(HeadCount(remote, heads), unit) && y < Times(HeadCount(size, heads), unit)
    ensures Times(HeadStart(p, size, heads), unit) + y == Times(HeadStart(c, remote, heads), unit) + b
  {
    hide Times, HeadStart, HeadCount;
    b := a - Start(g.remoteBase, r, g.remoteLen);
    y := g.plan.src + (b - g.plan.dst);
  }

  /** A copied request's sequence is long enough. */
  lemma CopiedEnough(ps: Producers, q: Consumer, p: nat, k: nat)
    requires HasSequences(ps, q, p) && k < |q.remotes|
    ensures OutcomesOf(ps, q, p)[k].Copies? ==> Enough(ps, q, k)
  {
    hide Used, Resolve, SpecsGiven;
    if OutcomesOf(ps, q, p)[k].Copies? {
      ResolvesExactly(RequestOf(ps, q, p, k), q.mambas, q.perBlock);
    }
  }

  /** A request with a block to copy and a sequence long enough is copied. */
  lemma EnoughCopied(ps: Producers, q: Consumer, p: nat, x: Place)
    requires HasSequences(ps, q, p) && Exists(q, x) && Enough(ps, q, x.k)
    ensures OutcomesOf(ps, q, p)[x.k].Copies?
  {
    hide Resolve, SpecsGiven, Used, Width;
    var request, g := RequestOf(ps, q, p, x.k), q.targets[x.j].group;
    assert OutcomesOf(ps, q, p)[x.k] == Resolve(request, q.mambas, q.perBlock);
    ResolvesExactly(request, q.mambas, q.perBlock);
    UsedEmpty(q.remotes[x.k][g], q.mambas[g]);
    assert SomeBlock(request, q.mambas, q.perBlock);
    assert EnoughBlocks(request, q.mambas);
  }

  /** Kernel block t of the list that producer p resolved for a group. */
  lemma ResolvedBlock(ps: Producers, q: Consumer, p: nat, k: nat, g: nat, i: nat, f: nat)
    requires HasSequences(ps, q, p) && q.HasGroup(k, g) && OutcomesOf(ps, q, p)[k].Copies?
    requires i < |q.Ids(k, g)| && f < q.Parts(g)
    ensures var o, w, t := OutcomesOf(ps, q, p)[k], q.Parts(g), i * q.Parts(g) + f;
      && g < |o.locals| == |o.remotes| && |o.locals[g]| == |o.remotes[g]| == |q.Ids(k, g)| * w && t < |o.locals[g]|
      && ps.blocks(k, g) >= |q.Ids(k, g)|
      && o.remotes[g][t] == q.Ids(k, g)[i] * w + f
      && o.locals[g][t] == Used(ps.at(p).locals[k][g], q.mambas[g])[ps.blocks(k, g) - |q.Ids(k, g)| + i] * w + f
  {
    hide Used, Resolve, SpecsGiven, Width;
    ResolvedContents(RequestOf(ps, q, p, k), q.mambas, q.perBlock, g, i, f);
  }

  lemma ResolvedLength(ps: Producers, q: Consumer, p: nat, k: nat, g: nat)
    requires HasSequences(ps, q, p) && k < |q.remotes| && OutcomesOf(ps, q, p)[k].Copies?
    requires g < |OutcomesOf(ps, q, p)[k].remotes|
    ensures q.HasGroup(k, g) && |OutcomesOf(ps, q, p)[k].remotes[g]| == |q.Ids(k, g)| * q.Parts(g)
  {
    hide Used, Resolve, SpecsGiven;
    ResolvedSizes(RequestOf(ps, q, p, k), q.mambas, q.perBlock, g);
  }

  /** Every descriptor that covers an address brings there the byte that belongs there. */
  lemma SentIsWanted(ps: Producers, q: Consumer, p: nat, d: Desc, a: int) returns (x: Place)
    requires ps.Valid() && q.size > 0 && Ready(ps, q) && Faces(ps, q, p) && d in Sent(ps, q, p) && Covers(d, a)
    ensures InBlock(q, ps.heads, x) && Address(q, x) == a && Enough(ps, q, x.k)
    ensures ps.at(p).source(Origin(d, a)) == ps.content(Wanted(ps, q, x))
  {
    hide OutcomesOf, RegionsOf, HasSequences, Enough, Address, Wanted, InBlock, Exists, Stored;
    var regions, os, s := RegionsOf(ps, q, p), OutcomesOf(ps, q, p), Origin(d, a);
    assert Serves(ps, q, p);
    assert Moves(TransferDescs(regions, os, true), s, a);
    TransferMoves(regions, os, s, a);
    var k: nat, j: nat, t: nat :| CopyMoves(regions, os, k, j, t, s, a);
    assert j < |q.targets| by { RegionCount(ps, q, p); }
    PlanFaithful(ps, q, p, j);
    CopiedEnough(ps, q, p, k);
    x := BlockIsWanted(ps, q, p, k, j, t, s, a);
  }

  lemma RegionCount(ps: Producers, q: Consumer, p: nat)
    requires ps.Valid() && q.size > 0 && TensorsMatch(ps, q, p)
    ensures |RegionsOf(ps, q, p)| == |q.targets|
    ensures forall j :: 0 <= j < |q.targets| ==> RegionsOf(ps, q, p)[j] == ps.at(p).pairs[j].Planned(RanksOf(ps, q, p))
  {
  }

  /** Which block and which part of it position t of a kernel block list is. */
  lemma PartOf(t: nat, n: nat, w: nat) returns (i: nat, f: nat)
    requires t < n * w
    ensures i < n && f < w && t == i * w + f
  {
    i, f := t / w, t % w;
    if i >= n { MulMonotone(n, i, w); }
  }

  lemma BlockIsWanted(ps: Producers, q: Consumer, p: nat, k: nat, j: nat, t: nat, s: int, a: int) returns (x: Place)
    requires ps.Valid() && q.size > 0 && Serves(ps, q, p) && j < |q.targets| && k < |q.remotes| && Enough(ps, q, k)
    requires CopyMoves(RegionsOf(ps, q, p), OutcomesOf(ps, q, p), k, j, t, s, a)
    requires var plan := ps.at(p).pairs[j].PlanOf(RanksOf(ps, q, p));
      plan.Some? && (plan.value.send ==> Faithful(plan.value, p, ps.size, q.rank, q.size, ps.heads, q.targets[j].unit))
    ensures InBlock(q, ps.heads, x) && Address(q, x) == a && x.k == k
    ensures ps.at(p).source(s) == ps.content(Wanted(ps, q, x))
  {
    hide Times, HeadStart, HeadCount, Faithful, BarePlan, Covers, Origin, Start, OutcomesOf, RegionsOf, HasSequences, Used, Width;
    RegionCount(ps, q, p);
    var region, o, g := RegionsOf(ps, q, p)[j], OutcomesOf(ps, q, p)[k], q.targets[j].group;
    assert Matches(ps.at(p).pairs[j], q.targets[j], ps, q);
    ResolvedLength(ps, q, p, k, g);
    var i, f := PartOf(t, |q.Ids(k, g)|, q.Parts(g));
    ResolvedBlock(ps, q, p, k, g, i, f);
    var b, y := BlockByte(region, o.locals[g][t], o.remotes[g][t], p, ps.size, q.rank, q.size, ps.heads, q.targets[j].unit, s, a);
    x := Place(k, j, i, f, b);
    var z := Place(k, j, ps.blocks(k, g) - |q.Ids(k, g)| + i, f, y);
    assert Stored(ps, q, p, z);
    assert s == StoredAt(ps, q, p, z);
    assert Global(ps, p, q, z) == Wanted(ps, q, x);
  }

  /** Every byte of a block whose sequence is long enough is covered by a descriptor of a
      paired producer. */
  lemma WantedIsSent(ps: Producers, q: Consumer, x: Place) returns (p: nat, d: Desc)
    requires ps.Valid() && q.size > 0 && Ready(ps, q) && InBlock(q, ps.heads, x) && Enough(ps, q, x.k)
    ensures Faces(ps, q, p) && d in Sent(ps, q, p) && Covers(d, Address(q, x))
  {
    hide Separate, Nesting, HeadCountUnneeded, Times, HeadCount, Right, Faces, TransferDescs, RegionsOf, OutcomesOf, Address, Stored, Covers, HasSequences, Enough;
    p := OneSends(ps, q, x.j, x.b);
    assert PlanRight(ps, q, p, x.j, x.b, p) && Serves(ps, q, p);
    EnoughCopied(ps, q, p, x);
    var t, s := WriterMoves(ps, q, p, x);
    TransferMoves(RegionsOf(ps, q, p), OutcomesOf(ps, q, p), s, Address(q, x));
    d :| d in Sent(ps, q, p) && Covers(d, Address(q, x));
  }

  lemma WriterMoves(ps: Producers, q: Consumer, p: nat, x: Place) returns (t: nat, s: int)
    requires ps.Valid() && q.size > 0 && Serves(ps, q, p) && InBlock(q, ps.heads, x) && OutcomesOf(ps, q, p)[x.k].Copies?
    requires PlanRight(ps, q, p, x.j, x.b, p)
    ensures CopyMoves(RegionsOf(ps, q, p), OutcomesOf(ps, q, p), x.k, x.j, t, s, Address(q, x))
  {
    hide Times, HeadStart, HeadCount, Faithful, BarePlan, OutcomesOf, RegionsOf, HasSequences, Used, Width;
    RegionCount(ps, q, p);
    var g := q.targets[x.j].group;
    ResolvedBlock(ps, q, p, x.k, g, x.i, x.f);
    t := x.i * q.Parts(g) + x.f;
    var region, o := RegionsOf(ps, q, p)[x.j], OutcomesOf(ps, q, p)[x.k];
    assert Matches(ps.at(p).pairs[x.j], q.targets[x.j], ps, q);
    var d := region.Block(o.locals[g][t], o.remotes[g][t]);
    s := Origin(d, Address(q, x));
    assert Covers(d, Address(q, x));
  }

  // ----- The whole transfer -----

  /** End to end, from block ids to bytes: once all descriptors of the paired producers
      have arrived, in any order and interleaving, every byte of every block of a request
      whose sequence is long enough is the one it is for: that byte of the consumer's own
      heads in the block of the sequence that stands as far from its end. */
  lemma ConsumerHoldsItsHeads(ps: Producers, q: Consumer, arrivals: seq<Arrival>, m: Memory, x: Place)
    requires ps.Valid() && q.size > 0 && Ready(ps, q) && Complete(arrivals, ps, q)
    requires InBlock(q, ps.heads, x) && Enough(ps, q, x.k)
    ensures Holds(Deliver(arrivals, Sources(ps), m), Address(q, x), ps.content(Wanted(ps, q, x)))
  {
    hide Sent, Deliver, Faces, Holds, Covers, Origin, Serves, Nesting, HeadCountUnneeded, Enough, Address, Wanted, Times, HeadCount, Exists;
    var a, v := Address(q, x), ps.content(Wanted(ps, q, x));
    forall y | y in arrivals && Covers(y.desc, a) ensures Sources(ps)(y.from)(Origin(y.desc, a)) == v {
      var z := SentIsWanted(ps, q, y.from, y.desc, a);
      assert z == x;
    }
    var p, d := WantedIsSent(ps, q, x);
    assert Arrival(d, p) in arrivals && Covers(Arrival(d, p).desc, a);
    DeliverBrings(arrivals, Sources(ps), m, a, v);
  }

  /** Nothing else is written: an address outside the blocks of requests whose sequences
      are long enough keeps its byte. */
  lemma NothingElseWritten(ps: Producers, q: Consumer, arrivals: seq<Arrival>, m: Memory, a: int)
    requires ps.Valid() && q.size > 0 && Ready(ps, q) && Complete(arrivals, ps, q)
    requires forall x :: InBlock(q, ps.heads, x) && Enough(ps, q, x.k) ==> Address(q, x) != a
    ensures var r := Deliver(arrivals, Sources(ps), m); (a in r <==> a in m) && (a in r ==> r[a] == m[a])
  {
    hide Sent, Deliver, Faces, Covers, Origin, Serves, Nesting, HeadCountUnneeded, Address, Wanted, InBlock, Separate, Enough;
    if Touched(arrivals, a) {
      var y :| y in arrivals && Covers(y.desc, a);
      var z := SentIsWanted(ps, q, y.from, y.desc, a);
      assert false;
    }
    DeliverElsewhere(arrivals, Sources(ps), m, a);
  }

  /** With true lengths and a plan that needs no head count, none of the connector's
      assertions fails on a request whose groups hold the registered tensors. */
  lemma NoAssertionFails(ps: Producers, q: Consumer, p: nat, k: nat)
    requires ps.Valid() && q.size > 0 && Ready(ps, q) && Faces(ps, q, p) && k < |q.remotes|
    ensures HasSequences(ps, q, p) && RequestSound(ps.at(p).pairs, RanksOf(ps, q, p), OutcomesOf(ps, q, p)[k])
  {
    hide Separate, Nesting, HeadCountUnneeded, Times, HeadCount, HeadStart, Faces, BarePlan, Stored, OutcomesOf, RegionsOf, HasSequences;
    assert Serves(ps, q, p);
    RegionCount(ps, q, p);
    var w, t, o := ps.at(p), RanksOf(ps, q, p), OutcomesOf(ps, q, p)[k];
    if o.Copies? {
      forall j | 0 <= j < |w.pairs| ensures PairSound(w.pairs[j], t, o) {
        PlanFaithful(ps, q, p, j);
        assert Matches(w.pairs[j], q.targets[j], ps, q);
        assert Fits(RegionsOf(ps, q, p), o);
        assert RegionsOf(ps, q, p)[j].group < |o.locals|;
      }
    }
  }

  // ----- An instance -----

  /** Two producers of one head each hold a sequence of two blocks, one byte per head; a
      consumer of both heads has the first block already and asks for the second. */
  const TWO := Producers(2, 2,
    (p: nat) => Producer([RegionPair(0, 0, 1, 1, 0, 2, 2)], [[[1, 2]]], (a: int) => 10 * (a - 1) + p),
    (k: nat, g: nat) => 2,
    (x: Place) => 10 * x.i + x.b)
  const ONE := Consumer(0, 1, [Target(0, 0, 2, 1)], [[[3]]], [false], 1)

  lemma TwoFit(p: nat)
    requires p < 2
    ensures HasSequences(TWO, ONE, p) && Fitting(TWO, ONE, p)
  {
    assert HasSequences(TWO, ONE, p);
    var o := OutcomesOf(TWO, ONE, p)[0];
    ResolvePairs(RequestOf(TWO, ONE, p, 0), ONE.mambas, ONE.perBlock);
    assert Fits(RegionsOf(TWO, ONE, p), o);
  }

  lemma TwoServe(p: nat)
    requires p < 2
    ensures Serves(TWO, ONE, p)
  {
    TwoFit(p);
    hide HasSequences, Fitting;
    assert HeadCount(2, 2) == 1 && HeadCount(1, 2) == 2 && HeadStart(p, 2, 2) == p;
    assert Matches(TWO.at(p).pairs[0], ONE.targets[0], TWO, ONE);
    forall x | Stored(TWO, ONE, p, x) ensures TWO.at(p).source(StoredAt(TWO, ONE, p, x)) == TWO.content(Global(TWO, p, ONE, x)) {
      assert x.b == 0 && x.f == 0 && x.k == 0 && x.j == 0;
      assert Used([1, 2], false) == [1, 2];
    }
  }

  /** The hypotheses can be met: byte 1 of the consumer's block is for head 1 of the
      sequence's second block. */
  lemma ReadyInstance()
    ensures Ready(TWO, ONE) && Enough(TWO, ONE, 0)
    ensures var x := Place(0, 0, 0, 0, 1);
      InBlock(ONE, 2, x) && Address(ONE, x) == 7 && Wanted(TWO, ONE, x) == Place(0, 0, 1, 0, 1)
  {
    forall p | Faces(TWO, ONE, p) ensures Serves(TWO, ONE, p) {
      assert p < 2 by { PairingSymmetric(0, 0, 1, 2); }
      TwoServe(p);
    }
    assert HeadCount(1, 2) == 2 && HeadStart(0, 1, 2) == 0;
    assert Nesting(2, 1, 2);
    assert ONE.Ids(0, 0) == [3];
  }
}
