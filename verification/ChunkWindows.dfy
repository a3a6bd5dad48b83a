/** Chunk windows of a compression session
    (kvsfuse-vllm0.30.0/mooncake/mooncake_connector.py): chunk ids alternate between the
    K and the V part of runs of logical blocks. */
module ChunkWindows {
  import opened Powers
  import opened BlockCopies

  datatype Window = Window(start: nat, count: int, part: nat)
  {
    predicate Covers(block: nat, p: nat) { start <= block < start + count && part == p }
  }

  function TotalChunks(blocks: nat, perChunk: nat): nat
    requires perChunk > 0
  {
    (blocks + perChunk - 1) / perChunk * 2
  }

  function ChunkWindow(id: nat, blocks: nat, perChunk: nat): Window {
    var start := id / 2 * perChunk;
    Window(start, if perChunk < blocks - start then perChunk else blocks - start, id % 2)
  }

  lemma Rounded(blocks: nat, perChunk: nat, k: nat)
    requires perChunk > 0
    ensures k < (blocks + perChunk - 1) / perChunk <==> k * perChunk < blocks
  {
    var n := (blocks + perChunk - 1) / perChunk;
    var r := (blocks + perChunk - 1) % perChunk;
    assert blocks + perChunk - 1 == n * perChunk + r;
    if k < n {
      MulMonotone(k + 1, n, perChunk);
      assert (k + 1) * perChunk == k * perChunk + perChunk;
    } else {
      MulMonotone(n, k, perChunk);
    }
  }

  /** Every window of a session is non-empty, within the blocks, and at most one chunk long. */
  lemma WindowNonEmpty(id: nat, blocks: nat, perChunk: nat)
    requires perChunk > 0 && id < TotalChunks(blocks, perChunk)
    ensures var w := ChunkWindow(id, blocks, perChunk);
      0 < w.count <= perChunk && w.start + w.count <= blocks && w.part < 2
  {
    Rounded(blocks, perChunk, id / 2);
  }

  /** Each K/V part of each logical block lies in exactly one window. */
  lemma WindowsTile(blocks: nat, perChunk: nat, block: nat, part: nat, id: nat)
    requires perChunk > 0 && block < blocks && part < 2
    ensures var owner := 2 * (block / perChunk) + part;
      && owner < TotalChunks(blocks, perChunk)
      && (id < TotalChunks(blocks, perChunk) ==> (ChunkWindow(id, blocks, perChunk).Covers(block, part) <==> id == owner))
  {
    var k := block / perChunk;
    assert block == k * perChunk + block % perChunk;
    Rounded(blocks, perChunk, k);
    var i := id / 2;
    if i < k {
      MulMonotone(i + 1, k, perChunk);
      assert (i + 1) * perChunk == i * perChunk + perChunk;
    } else if i > k {
      MulMonotone(k + 1, i, perChunk);
      assert (k + 1) * perChunk == k * perChunk + perChunk;
    }
    assert id == 2 * i + id % 2;
  }

  // ----- Suffix matching -----

  /** `_match_compression_blocks` for one group: the local suffix that the consumer lacks.
      A local list that is too short passes unchanged. */
  function MatchGroup(local: seq<nat>, remote: seq<nat>, mamba: bool): (seq<nat>, seq<nat>) {
    var l, r := Used(local, mamba), Used(remote, mamba);
    (if |l| > |r| then Suffix(l, |r|) else l, r)
  }

  method MatchCompressionBlocks(locals: seq<seq<nat>>, remotes: seq<seq<nat>>, mambas: seq<bool>)
    returns (ls: seq<seq<nat>>, rs: seq<seq<nat>>)
    requires |locals| <= |mambas|
    ensures var given := if remotes == [] then seq(|locals|, _ => []) else remotes;
      && |ls| == |rs| == (if |locals| < |given| then |locals| else |given|)
      && forall i :: 0 <= i < |ls| ==> (ls[i], rs[i]) == MatchGroup(locals[i], given[i], mambas[i])
  {
    hide MatchGroup;
    var given := if remotes == [] then seq(|locals|, _ => []) else remotes;
    ls, rs := [], [];
    var i := 0;
    while i < |locals| && i < |given|
      invariant 0 <= i <= |locals| && i <= |given| && |ls| == |rs| == i
      invariant forall k :: 0 <= k < i ==> (ls[k], rs[k]) == MatchGroup(locals[k], given[k], mambas[k])
    {
      var m := MatchGroup(locals[i], given[i], mambas[i]);
      ls, rs := ls + [m.0], rs + [m.1];
      i := i + 1;
    }
  }

  /** Python's slice of a group by a window. */
  function Slice(ids: seq<nat>, w: Window): seq<nat> {
    if w.count <= 0 || w.start >= |ids| then []
    else ids[w.start..if w.start + w.count < |ids| then w.start + w.count else |ids|]
  }

  /** Position k of a producer's encode window and of the consumer's decode window of one
      chunk id name the same logical block: the consumer's block start + k is the
      producer's block with as many blocks behind it. */
  lemma WindowsPair(local: seq<nat>, remote: seq<nat>, mamba: bool, perChunk: nat, id: nat, k: nat)
    requires var l, r := Used(local, mamba), Used(remote, mamba);
      |l| >= |r| && perChunk > 0 && id < TotalChunks(|r|, perChunk) && k < ChunkWindow(id, |r|, perChunk).count
    ensures var l, r, w := Used(local, mamba), Used(remote, mamba), ChunkWindow(id, |Used(remote, mamba)|, perChunk);
      var m := MatchGroup(local, remote, mamba);
      && |Slice(m.0, w)| == |Slice(m.1, w)| == w.count
      && w.start + k < |r|
      && Slice(m.1, w)[k] == r[w.start + k]
      && Slice(m.0, w)[k] == l[|l| - |r| + (w.start + k)]
  {
    var l, r := Used(local, mamba), Used(remote, mamba);
    hide Used;
    WindowNonEmpty(id, |r|, perChunk);
    var w := ChunkWindow(id, |r|, perChunk);
    hide ChunkWindow;
    assert MatchGroup(local, remote, mamba).0 == Suffix(l, |r|);
  }

  /** All windows of a session pair exactly when the producer has enough blocks. */
  lemma WindowsPairExactly(local: seq<nat>, remote: seq<nat>, mamba: bool, perChunk: nat)
    requires perChunk > 0
    ensures var l, r, m := Used(local, mamba), Used(remote, mamba), MatchGroup(local, remote, mamba);
      (forall id: nat :: id < TotalChunks(|r|, perChunk) ==>
         |Slice(m.0, ChunkWindow(id, |r|, perChunk))| == |Slice(m.1, ChunkWindow(id, |r|, perChunk))|)
      <==> |l| >= |r|
  {
    hide Used, TotalChunks, ChunkWindow;
    var l, r, m := Used(local, mamba), Used(remote, mamba), MatchGroup(local, remote, mamba);
    if |l| >= |r| {
      forall id: nat | id < TotalChunks(|r|, perChunk)
        ensures |Slice(m.0, ChunkWindow(id, |r|, perChunk))| == |Slice(m.1, ChunkWindow(id, |r|, perChunk))|
      {
        EnoughPairs(ChunkWindow(id, |r|, perChunk), local, remote, mamba);
      }
    } else {
      var id := LastWindow(|r|, perChunk);
      var w := ChunkWindow(id, |r|, perChunk);
      assert |Slice(m.1, w)| == w.count;
      assert |Slice(m.0, w)| < w.count;
    }
  }

  /** The chunk id whose window holds the last block. */
  ghost function LastWindow(blocks: nat, perChunk: nat): (id: nat)
    requires perChunk > 0 && blocks > 0
    ensures id < TotalChunks(blocks, perChunk)
    ensures var w := ChunkWindow(id, blocks, perChunk); w.count > 0 && w.start < blocks && w.start + w.count == blocks
  {
    var id := 2 * ((blocks - 1) / perChunk);
    WindowsTile(blocks, perChunk, blocks - 1, 0, id);
    WindowNonEmpty(id, blocks, perChunk);
    id
  }

  /** Position by position, the slices of a group's matched lists by any window. */
  ghost predicate PairedBy(w: Window, local: seq<nat>, remote: seq<nat>, mamba: bool) {
    var l, r, m := Used(local, mamba), Used(remote, mamba), MatchGroup(local, remote, mamba);
    && |l| >= |r| && |Slice(m.0, w)| == |Slice(m.1, w)|
    && forall k :: 0 <= k < |Slice(m.1, w)| ==>
         w.start + k < |r| && Slice(m.1, w)[k] == r[w.start + k] && Slice(m.0, w)[k] == l[|l| - |r| + (w.start + k)]
  }

  lemma EnoughPairs(w: Window, local: seq<nat>, remote: seq<nat>, mamba: bool)
    requires |Used(local, mamba)| >= |Used(remote, mamba)|
    ensures PairedBy(w, local, remote, mamba)
  {
    hide Used;
    assert MatchGroup(local, remote, mamba).0 == Suffix(Used(local, mamba), |Used(remote, mamba)|);
  }

  /** What a session encodes and decodes: the open job has resolved the same block lists
      before it counts chunks and refuses a mismatch, so in every session every window
      of every group pairs, whatever the block count the windows are cut for. */
  lemma SessionWindowsPair(q: Request, mambas: seq<bool>, perBlock: nat, g: nat, blocks: nat, perChunk: nat, id: nat)
    requires SpecsGiven(q, mambas) && !Resolve(q, mambas, perBlock).Mismatched?
    requires g < |q.locals| && g < |q.remotes| && g < |mambas|
    ensures PairedBy(ChunkWindow(id, blocks, perChunk), q.locals[g], q.remotes[g], mambas[g])
  {
    hide Resolve, Used, ChunkWindow, PairedBy;
    ResolvedEnough(q, mambas, perBlock, g);
    EnoughPairs(ChunkWindow(id, blocks, perChunk), q.locals[g], q.remotes[g], mambas[g]);
  }

  // ----- Reassembly -----

  /** The windows of one part for the first k chunks, concatenated. */
  function Windows(ids: seq<nat>, blocks: nat, perChunk: nat, part: nat, k: nat): seq<nat> {
    if k == 0 then []
    else Windows(ids, blocks, perChunk, part, k - 1) + Slice(ids, ChunkWindow(2 * (k - 1) + part, blocks, perChunk))
  }

  /** Where the first k chunks of a part end. */
  function End(blocks: nat, perChunk: nat, k: nat): (e: nat)
    ensures e <= blocks
  {
    if k * perChunk < blocks then k * perChunk else blocks
  }

  lemma WindowBetween(blocks: nat, perChunk: nat, part: nat, k: nat)
    requires perChunk > 0 && part < 2 && 0 < k && 2 * k <= TotalChunks(blocks, perChunk)
    ensures var w := ChunkWindow(2 * (k - 1) + part, blocks, perChunk);
      w.count > 0 && w.start == End(blocks, perChunk, k - 1) && w.start + w.count == End(blocks, perChunk, k)
  {
    var id := 2 * (k - 1) + part;
    WindowNonEmpty(id, blocks, perChunk);
    assert id / 2 == k - 1;
    assert k * perChunk == (k - 1) * perChunk + perChunk;
  }

  lemma SliceExtends(ids: seq<nat>, w: Window)
    requires w.count > 0 && w.start + w.count <= |ids|
    ensures ids[..w.start] + Slice(ids, w) == ids[..w.start + w.count]
  {
  }

  lemma WindowsLast(ids: seq<nat>, blocks: nat, perChunk: nat, part: nat, k: nat)
    requires k > 0
    ensures Windows(ids, blocks, perChunk, part, k)
         == Windows(ids, blocks, perChunk, part, k - 1) + Slice(ids, ChunkWindow(2 * (k - 1) + part, blocks, perChunk))
  {
    hide Slice, ChunkWindow;
  }

  lemma {:induction false} WindowsPrefix(ids: seq<nat>, perChunk: nat, part: nat, k: nat)
    requires perChunk > 0 && part < 2 && 2 * k <= TotalChunks(|ids|, perChunk)
    ensures Windows(ids, |ids|, perChunk, part, k) == ids[..End(|ids|, perChunk, k)]
    decreases k
  {
    hide *;
    if k == 0 {
      StartsEmpty(ids, perChunk, part);
    } else {
      WindowsPrefix(ids, perChunk, part, k - 1);
      WindowBetween(|ids|, perChunk, part, k);
      WindowsLast(ids, |ids|, perChunk, part, k);
      SliceExtends(ids, ChunkWindow(2 * (k - 1) + part, |ids|, perChunk));
    }
  }

  lemma StartsEmpty(ids: seq<nat>, perChunk: nat, part: nat)
    ensures End(|ids|, perChunk, 0) == 0 && Windows(ids, |ids|, perChunk, part, 0) == []
  {
  }

  /** The K windows, and the V windows, of all chunk ids spell out the block list. */
  lemma WindowsReassemble(ids: seq<nat>, perChunk: nat, part: nat)
    requires perChunk > 0 && part < 2
    ensures Windows(ids, |ids|, perChunk, part, TotalChunks(|ids|, perChunk) / 2) == ids
  {
    var k := TotalChunks(|ids|, perChunk) / 2;
    assert TotalChunks(|ids|, perChunk) == 2 * k;
    WindowsPrefix(ids, perChunk, part, k);
    Rounded(|ids|, perChunk, k);
    assert ids[..|ids|] == ids;
  }
}
