/** `_send_blocks` of kvsfuse-vllm0.30.0/mooncake/mooncake_connector.py: descriptors go
    to the transfer engine in batches. */
module Batching {
  import opened BlockCopies

  const MAX_DESCRIPTORS: nat := 1024
  const MAX_BYTES: nat := 64 * 1024 * 1024

  datatype Outcome = Returned(code: int) | Raised

  function Bytes(ds: seq<Desc>): int {
    if ds == [] then 0 else Bytes(ds[..|ds| - 1]) + ds[|ds| - 1].len
  }

  function Concat(batches: seq<seq<Desc>>): seq<Desc> {
    if batches == [] then [] else Concat(batches[..|batches| - 1]) + batches[|batches| - 1]
  }

  lemma ConcatLast(batches: seq<seq<Desc>>, b: seq<Desc>)
    ensures Concat(batches + [b]) == Concat(batches) + b
  {
    assert (batches + [b])[..|batches|] == batches;
  }

  lemma BytesLast(ds: seq<Desc>, d: Desc)
    ensures Bytes(ds + [d]) == Bytes(ds) + d.len
  {
    assert (ds + [d])[..|ds|] == ds;
  }

  /** A batch the engine accepts: at most 1024 descriptors, more than 64 MiB only alone. */
  predicate Fitting(batch: seq<Desc>) {
    0 < |batch| <= MAX_DESCRIPTORS && (Bytes(batch) <= MAX_BYTES || |batch| == 1)
  }

  /** The batch could not have taken the next descriptor. */
  predicate Full(batch: seq<Desc>, next: Desc) {
    |batch| >= MAX_DESCRIPTORS || Bytes(batch) + next.len > MAX_BYTES
  }

  /** The inner loop: the end of the batch that starts at `start`, or None on a negative length. */
  method NextBatch(ds: seq<Desc>, start: nat) returns (end: nat, ok: bool)
    requires start < |ds|
    ensures start <= end <= |ds|
    ensures forall i :: start <= i < end ==> ds[i].len >= 0
    ensures ok ==> Fitting(ds[start..end]) && (end < |ds| ==> Full(ds[start..end], ds[end]))
    ensures !ok ==> end < |ds| && ds[end].len < 0
  {
    hide Bytes;
    end, ok := start, true;
    var bytes := 0;
    NoBytes(ds[start..start]);
    while end < |ds|
      invariant start <= end <= |ds| && bytes == Bytes(ds[start..end])
      invariant forall i :: start <= i < end ==> ds[i].len >= 0
      invariant end - start <= MAX_DESCRIPTORS && (bytes <= MAX_BYTES || end == start + 1)
    {
      var length := ds[end].len;
      if length < 0 { return end, false; }
      if end - start >= MAX_DESCRIPTORS || (end > start && bytes + length > MAX_BYTES) { break; }
      BytesLast(ds[start..end], ds[end]);
      assert ds[start..end + 1] == ds[start..end] + [ds[end]];
      bytes := bytes + length;
      end := end + 1;
    }
  }

  lemma NoBytes(ds: seq<Desc>)
    requires ds == []
    ensures Bytes(ds) == 0
  {
  }

  /** Batch k is followed by a descriptor it could not take. */
  ghost predicate FullAt(batches: seq<seq<Desc>>, k: nat)
    requires k + 1 < |batches|
  {
    batches[k + 1] != [] && Full(batches[k], batches[k + 1][0])
  }

  /** Every batch fits, and none could have been longer. */
  ghost predicate Greedy(batches: seq<seq<Desc>>) {
    && (forall k :: 0 <= k < |batches| ==> Fitting(batches[k]))
    && (forall k :: 0 <= k < |batches| - 1 ==> FullAt(batches, k))
  }

  lemma GreedyLast(batches: seq<seq<Desc>>, b: seq<Desc>)
    requires Greedy(batches) && Fitting(b) && (batches != [] ==> Full(batches[|batches| - 1], b[0]))
    ensures Greedy(batches + [b])
  {
    hide Fitting, Full;
    FittingNonEmpty(b);
    var all := batches + [b];
    forall k | 0 <= k < |all| - 1 ensures FullAt(all, k) {
      if k < |batches| - 1 { assert FullAt(batches, k); }
    }
  }

  function Zip(src: seq<int>, dst: seq<int>, lens: seq<int>): (ds: seq<Desc>)
    requires |src| == |dst| == |lens|
    ensures |ds| == |lens|
  {
    seq(|lens|, i requires 0 <= i < |lens| => Desc(src[i], dst[i], lens[i]))
  }

  /** The outer loop; `engine(k)` is what the engine answers to the k-th batch. */
  method SendAll(ds: seq<Desc>, engine: nat -> int) returns (r: Outcome, batches: seq<seq<Desc>>)
    ensures Concat(batches) <= ds && Greedy(batches)
    ensures forall k :: 0 <= k < |batches| - 1 ==> engine(k) == 0
    ensures r.Raised? ==> (batches != [] ==> engine(|batches| - 1) == 0) && exists i :: |Concat(batches)| <= i < |ds| && ds[i].len < 0
    ensures r.Returned? ==> r.code == if batches == [] then 0 else engine(|batches| - 1)
    ensures r == Returned(0) ==> Concat(batches) == ds
  {
    hide Fitting, Full, Concat, Greedy;
    batches := [];
    NothingSent();
    var start := 0;
    while start < |ds|
      invariant 0 <= start <= |ds| && Concat(batches) == ds[..start] && Greedy(batches)
      invariant forall k :: 0 <= k < |batches| ==> engine(k) == 0
      invariant batches != [] && start < |ds| ==> Full(batches[|batches| - 1], ds[start])
    {
      var end, ok := NextBatch(ds, start);
      if !ok { return Raised, batches; }
      var batch := ds[start..end];
      FittingNonEmpty(batch);
      GreedyLast(batches, batch);
      ConcatLast(batches, batch);
      assert ds[..start] + batch == ds[..end];
      var code := engine(|batches|);
      batches := batches + [batch];
      if code != 0 { return Returned(code), batches; }
      start := end;
    }
    assert ds[..start] == ds;
    return Returned(0), batches;
  }

  /** `_send_blocks` */
  method SendBlocks(src: seq<int>, dst: seq<int>, lens: seq<int>, engine: nat -> int)
    returns (r: Outcome, batches: seq<seq<Desc>>)
    ensures Greedy(batches) && (forall k :: 0 <= k < |batches| - 1 ==> engine(k) == 0)
    ensures |src| == |dst| == |lens| ==> Concat(batches) <= Zip(src, dst, lens)
    ensures r.Raised? ==> !(|src| == |dst| == |lens|) || exists i :: 0 <= i < |lens| && lens[i] < 0
    ensures !(|src| == |dst| == |lens|) ==> r.Raised? && batches == []
    ensures r.Returned? ==> r.code == if batches == [] then 0 else engine(|batches| - 1)
    ensures r == Returned(0) ==> |src| == |dst| == |lens| && Concat(batches) == Zip(src, dst, lens)
  {
    hide Concat, Greedy;
    if !(|src| == |dst| == |lens|) {
      NothingSent();
      return Raised, [];
    }
    r, batches := SendAll(Zip(src, dst, lens), engine);
    if r.Raised? {
      ghost var ds := Zip(src, dst, lens);
      ghost var i :| 0 <= i < |ds| && ds[i].len < 0;
      assert lens[i] < 0;
    }
  }

  lemma NothingSent()
    ensures Concat([]) == [] && Greedy([])
  {
  }

  lemma FittingNonEmpty(batch: seq<Desc>)
    requires Fitting(batch)
    ensures batch != []
  {
  }

  // ----- What the batches leave in memory -----

  function ExecuteBatches(batches: seq<seq<Desc>>, source: int -> int, m: Memory): Memory {
    if batches == [] then m
    else Execute(batches[|batches| - 1], source, ExecuteBatches(batches[..|batches| - 1], source, m))
  }

  lemma {:induction false} BatchesExecuteAll(batches: seq<seq<Desc>>, source: int -> int, m: Memory)
    ensures ExecuteBatches(batches, source, m) == Execute(Concat(batches), source, m)
  {
    hide Execute;
    if batches == [] {
      ExecuteNothing(source, m);
    } else {
      var n := |batches| - 1;
      BatchesExecuteAll(batches[..n], source, m);
      ExecuteAppend(Concat(batches[..n]), batches[n], source, m);
    }
  }

  lemma ExecuteNothing(source: int -> int, m: Memory)
    ensures Execute([], source, m) == m
  {
  }

  /** Coalescing and batching together: once every batch is sent, the destination holds
      what the plain block-by-block copies would have left. */
  lemma TransferLeavesBlockCopies(regions: seq<Region>, os: seq<BlockCopies.Outcome>, batches: seq<seq<Desc>>, source: int -> int, m: Memory)
    requires AllFit(regions, os) && Concat(batches) == TransferDescs(regions, os, true)
    ensures ExecuteBatches(batches, source, m) == Execute(TransferDescs(regions, os, false), source, m)
  {
    hide *;
    BatchesExecuteAll(batches, source, m);
    TransferRefines(regions, os, source, m);
  }
}
