/** The wire payload of kvserve_v1/compression/wire.py: `build_wire` and
    `restore_from_wire` for single, byte-chunked and manager-chunked bodies. */
module Wire {
  import opened Numbers
  import opened Wrappers
  import opened Powers
  import opened WireMetadata

  const U8 := Dtype(0, 1)

  // ----- Coalesced side tensors -----

  /** One row of the layout table. */
  datatype Slot = Slot(offset: nat, nbytes: nat, shape: seq<nat>, dtype: Dtype)

  function Padding(offset: nat, itemsize: nat): nat
    requires itemsize > 0
  {
    (itemsize - offset % itemsize) % itemsize
  }

  predicate AllValid(ts: seq<Tensor>) {
    forall i :: 0 <= i < |ts| ==> ts[i].Valid()
  }

  function Zeros(n: nat): seq<nat> { seq(n, _ => 0) }

  /** The bytes from `offset` on, and where each tensor starts. */
  function Storage(ts: seq<Tensor>, offset: nat): seq<nat>
    requires AllValid(ts)
  {
    if ts == [] then []
    else
      assert ts[0].Valid();
      var pad := Padding(offset, ts[0].dtype.itemsize);
      Zeros(pad) + ts[0].bytes + Storage(ts[1..], offset + pad + |ts[0].bytes|)
  }

  function Layout(ts: seq<Tensor>, offset: nat): seq<Slot>
    requires AllValid(ts)
  {
    if ts == [] then []
    else
      assert ts[0].Valid();
      var start := offset + Padding(offset, ts[0].dtype.itemsize);
      [Slot(start, |ts[0].bytes|, ts[0].shape, ts[0].dtype)] + Layout(ts[1..], start + |ts[0].bytes|)
  }

  /** A flat byte tensor. */
  function Flat(bytes: seq<nat>): Tensor { Tensor([|bytes|], U8, bytes) }

  datatype Side = Side(tensors: seq<Tensor>, layout: Option<seq<Slot>>)

  /** `_coalesce_aux_tensors`: at most one tensor passes through as it is. */
  function Coalesce(ts: seq<Tensor>): Side
    requires AllValid(ts)
  {
    if |ts| <= 1 then Side(ts, None) else Side([Flat(Storage(ts, 0))], Some(Layout(ts, 0)))
  }

  /** Reading bytes [start, end) as a typed tensor: the offset and length must suit the dtype. */
  function View(storage: seq<nat>, slot: Slot): Result<Tensor> {
    if slot.dtype.itemsize == 0 || slot.offset % slot.dtype.itemsize != 0 || slot.offset + slot.nbytes > |storage|
       || slot.nbytes != Numel(slot.shape) * slot.dtype.itemsize
    then Failure
    else Ok(Tensor(slot.shape, slot.dtype, storage[slot.offset..slot.offset + slot.nbytes]))
  }

  function Views(storage: seq<nat>, layout: seq<Slot>): Result<seq<Tensor>> {
    if layout == [] then Ok([])
    else
      var head, tail := View(storage, layout[0]), Views(storage, layout[1..]);
      if head.Ok? && tail.Ok? then Ok([head.value] + tail.value) else Failure
  }

  /** `_expand_aux_tensors` */
  function Expand(side: Side): Result<seq<Tensor>> {
    if side.layout.None? then Ok(side.tensors)
    else if side.tensors == [] then Ok([])
    else Views(side.tensors[0].bytes, side.layout.value)
  }

  lemma Aligned(offset: nat, itemsize: nat)
    requires itemsize > 0
    ensures (offset + Padding(offset, itemsize)) % itemsize == 0 && Padding(offset, itemsize) < itemsize
  {
    var q, r := offset / itemsize, offset % itemsize;
    if r == 0 {
      DivMod(itemsize, itemsize, 1, 0);
    } else {
      DivMod(itemsize - r, itemsize, 0, itemsize - r);
      MulNext(q, itemsize);
      DivMod(offset + (itemsize - r), itemsize, q + 1, 0);
    }
  }

  /** Every slot starts at the first multiple of its element size behind the one before and
      ends before the next one starts; the last ends with the storage. */
  lemma {:induction false} LayoutSound(ts: seq<Tensor>, offset: nat, i: nat)
    requires AllValid(ts) && i < |ts|
    ensures var l := Layout(ts, offset); var end := offset + |Storage(ts, offset)|;
      && |l| == |ts| && l[i].offset % ts[i].dtype.itemsize == 0 && l[i].offset >= offset
      && l[i].nbytes == |ts[i].bytes| && l[i].shape == ts[i].shape && l[i].dtype == ts[i].dtype
      && l[i].offset + l[i].nbytes <= (if i + 1 < |ts| then l[i + 1].offset else end)
      && l[i].offset < (if i == 0 then offset else l[i - 1].offset + l[i - 1].nbytes) + ts[i].dtype.itemsize
      && (i + 1 == |ts| ==> l[i].offset + l[i].nbytes == end)
  {
    Aligned(offset, ts[0].dtype.itemsize);
    var next := offset + Padding(offset, ts[0].dtype.itemsize) + |ts[0].bytes|;
    if |ts| > 1 {
      LayoutSound(ts[1..], next, if i == 0 then 0 else i - 1);
    } else {
      assert Layout(ts[1..], next) == [];
    }
  }

  lemma {:induction false} LayoutLength(ts: seq<Tensor>, offset: nat)
    requires AllValid(ts)
    ensures |Layout(ts, offset)| == |ts|
  {
    if ts != [] {
      LayoutLength(ts[1..], offset + Padding(offset, ts[0].dtype.itemsize) + |ts[0].bytes|);
    }
  }

  /** Slots of different tensors share no byte. */
  lemma {:induction false} SlotsDisjoint(ts: seq<Tensor>, offset: nat, i: nat, j: nat)
    requires AllValid(ts) && i < j < |ts|
    ensures |Layout(ts, offset)| == |ts|
    ensures Layout(ts, offset)[i].offset + Layout(ts, offset)[i].nbytes <= Layout(ts, offset)[j].offset
    decreases j
  {
    hide Layout, Storage;
    LayoutLength(ts, offset);
    LayoutSound(ts, offset, i);
    if i + 1 < j {
      SlotsDisjoint(ts, offset, i, j - 1);
      LayoutSound(ts, offset, j - 1);
    }
  }

  /** One step of storage and layout. */
  lemma StorageFirst(ts: seq<Tensor>, offset: nat)
    requires AllValid(ts) && ts != []
    ensures ts[0].Valid() && AllValid(ts[1..])
    ensures var pad := Padding(offset, ts[0].dtype.itemsize); var next := offset + pad + |ts[0].bytes|;
      && Storage(ts, offset) == Zeros(pad) + ts[0].bytes + Storage(ts[1..], next)
      && Layout(ts, offset) == [Slot(offset + pad, |ts[0].bytes|, ts[0].shape, ts[0].dtype)] + Layout(ts[1..], next)
  {
    assert ts[0].Valid();
  }

  lemma ViewsFirst(storage: seq<nat>, slot: Slot, rest: seq<Slot>, t: Tensor, ts: seq<Tensor>)
    requires View(storage, slot) == Ok(t) && Views(storage, rest) == Ok(ts)
    ensures Views(storage, [slot] + rest) == Ok([t] + ts)
  {
    assert ([slot] + rest)[1..] == rest;
  }

  lemma NothingViewed(storage: seq<nat>)
    ensures Views(storage, []) == Ok([])
  {
  }

  lemma {:induction false} ViewsRestore(before: seq<nat>, ts: seq<Tensor>)
    requires AllValid(ts)
    ensures Views(before + Storage(ts, |before|), Layout(ts, |before|)) == Ok(ts)
    decreases |ts|
  {
    hide Storage, Layout, Views, View, Padding, AllValid;
    if ts == [] {
      NothingStored(ts, |before|);
      NothingViewed(before + Storage(ts, |before|));
    } else {
      StorageFirst(ts, |before|);
      var t, pad := ts[0], Padding(|before|, ts[0].dtype.itemsize);
      var before' := before + Zeros(pad) + t.bytes;
      assert |before'| == |before| + pad + |t.bytes|;
      var rest := Storage(ts[1..], |before'|);
      ViewsRestore(before', ts[1..]);
      assert before + Storage(ts, |before|) == before' + rest;
      ViewFirst(before, t, rest);
      ViewsFirst(before' + rest, Slot(|before| + pad, |t.bytes|, t.shape, t.dtype), Layout(ts[1..], |before'|), t, ts[1..]);
      assert ts == [t] + ts[1..];
    }
  }

  lemma ViewFirst(before: seq<nat>, t: Tensor, rest: seq<nat>)
    requires t.Valid()
    ensures var start := |before| + Padding(|before|, t.dtype.itemsize);
      View(before + Zeros(Padding(|before|, t.dtype.itemsize)) + t.bytes + rest, Slot(start, |t.bytes|, t.shape, t.dtype)) == Ok(t)
  {
    var start := |before| + Padding(|before|, t.dtype.itemsize);
    Aligned(|before|, t.dtype.itemsize);
    var storage := before + Zeros(Padding(|before|, t.dtype.itemsize)) + t.bytes + rest;
    assert storage[start..start + |t.bytes|] == t.bytes;
  }

  lemma ExpandCoalesce(ts: seq<Tensor>)
    requires AllValid(ts)
    ensures Expand(Coalesce(ts)) == Ok(ts)
  {
    if |ts| > 1 {
      ViewsRestore([], ts);
      assert [] + Storage(ts, 0) == Storage(ts, 0);
    }
  }

  /** The loop of `_coalesce_aux_tensors`. */
  method LayOut(ts: seq<Tensor>) returns (bytes: seq<nat>, layout: seq<Slot>)
    requires AllValid(ts)
    ensures bytes == Storage(ts, 0) && layout == Layout(ts, 0)
  {
    hide Storage, Layout, Padding;
    bytes, layout := [], [];
    var i := 0;
    assert ts[0..] == ts;
    while i < |ts|
      invariant 0 <= i <= |ts|
      invariant bytes + Storage(ts[i..], |bytes|) == Storage(ts, 0)
      invariant layout + Layout(ts[i..], |bytes|) == Layout(ts, 0)
    {
      StorageFirst(ts[i..], |bytes|);
      assert ts[i..][1..] == ts[i + 1..] && ts[i..][0] == ts[i];
      var t := ts[i];
      var padded := bytes + Zeros(Padding(|bytes|, t.dtype.itemsize));
      layout := layout + [Slot(|padded|, |t.bytes|, t.shape, t.dtype)];
      bytes := padded + t.bytes;
      i := i + 1;
    }
    NothingStored(ts[i..], |bytes|);
  }

  lemma NothingStored(ts: seq<Tensor>, offset: nat)
    requires ts == []
    ensures Storage(ts, offset) == [] && Layout(ts, offset) == []
  {
  }

  method CoalesceAux(ts: seq<Tensor>) returns (side: Side)
    requires AllValid(ts)
    ensures side == Coalesce(ts)
  {
    if |ts| <= 1 { return Side(ts, None); }
    var bytes, layout := LayOut(ts);
    return Side([Flat(bytes)], Some(layout));
  }

  function Prepend(ts: seq<Tensor>, r: Result<seq<Tensor>>): Result<seq<Tensor>> {
    match r case Ok(rest) => Ok(ts + rest) case Failure => Failure
  }

  lemma PrependNothing(r: Result<seq<Tensor>>)
    ensures Prepend([], r) == r
  {
    if r.Ok? { assert [] + r.value == r.value; }
  }

  lemma PrependNext(ts: seq<Tensor>, storage: seq<nat>, layout: seq<Slot>)
    requires layout != []
    ensures View(storage, layout[0]).Failure? ==> Prepend(ts, Views(storage, layout)) == Failure
    ensures View(storage, layout[0]).Ok? ==>
      Prepend(ts, Views(storage, layout)) == Prepend(ts + [View(storage, layout[0]).value], Views(storage, layout[1..]))
  {
    hide View;
    var rest := Views(storage, layout[1..]);
    if rest.Ok? && View(storage, layout[0]).Ok? {
      var t := View(storage, layout[0]).value;
      assert ts + ([t] + rest.value) == (ts + [t]) + rest.value;
    }
  }

  method ExpandAux(side: Side) returns (r: Result<seq<Tensor>>)
    ensures r == Expand(side)
  {
    hide View, Views, Prepend;
    if side.layout.None? { return Ok(side.tensors); }
    if side.tensors == [] { return Ok([]); }
    var storage, layout := side.tensors[0].bytes, side.layout.value;
    assert layout[0..] == layout;
    PrependNothing(Views(storage, layout));
    var restored: seq<Tensor> := [];
    var i := 0;
    while i < |layout|
      invariant 0 <= i <= |layout|
      invariant Views(storage, layout) == Prepend(restored, Views(storage, layout[i..]))
    {
      PrependNext(restored, storage, layout[i..]);
      assert layout[i..][1..] == layout[i + 1..];
      var t := View(storage, layout[i]);
      if t.Failure? { return Failure; }
      restored := restored + [t.value];
      i := i + 1;
    }
    ViewsNothing(restored, storage, layout[i..]);
    return Ok(restored);
  }

  lemma ViewsNothing(ts: seq<Tensor>, storage: seq<nat>, layout: seq<Slot>)
    requires layout == []
    ensures Prepend(ts, Views(storage, layout)) == Ok(ts)
  {
    assert ts + [] == ts;
  }

  // ----- Splitting a body -----

  function Pieces(bytes: seq<nat>, size: nat): seq<Tensor>
    requires size > 0
  {
    if |bytes| == 0 then []
    else if |bytes| <= size then [Flat(bytes)]
    else [Flat(bytes[..size])] + Pieces(bytes[size..], size)
  }

  /** `_split_tensor_bytes`; a scalar has no byte view unless its elements are bytes. */
  function Split(body: Tensor, maxChunkBytes: int): Result<seq<Tensor>> {
    if maxChunkBytes <= 0 || (body.shape == [] && body.dtype.itemsize != 1) then Failure
    else Ok(Pieces(body.bytes, maxChunkBytes))
  }

  function Joined(chunks: seq<Tensor>): seq<nat> {
    if chunks == [] then [] else chunks[0].bytes + Joined(chunks[1..])
  }

  /** The pieces concatenate to the bytes, and none is empty or longer than the limit. */
  lemma {:induction false} PiecesJoin(bytes: seq<nat>, size: nat)
    requires size > 0
    ensures Joined(Pieces(bytes, size)) == bytes
    ensures forall i :: 0 <= i < |Pieces(bytes, size)| ==> 0 < |Pieces(bytes, size)[i].bytes| <= size
    decreases |bytes|
  {
    if |bytes| > size {
      PiecesJoin(bytes[size..], size);
      assert bytes == bytes[..size] + bytes[size..];
    } else if |bytes| > 0 {
      assert Joined([Flat(bytes)]) == bytes + Joined([]);
    }
  }

  /** Piece i is the i-th stretch of `size` bytes, the last one what is left. */
  lemma {:induction false} PieceAt(bytes: seq<nat>, size: nat, i: nat)
    requires size > 0 && i < |Pieces(bytes, size)|
    ensures i * size < |bytes| && (i == |Pieces(bytes, size)| - 1 <==> |bytes| <= i * size + size)
    ensures Pieces(bytes, size)[i] == Flat(bytes[i * size..Least(i * size + size, |bytes|)])
    decreases |bytes|
  {
    if |bytes| > size && i > 0 {
      PieceAt(bytes[size..], size, i - 1);
      MulNext(i - 1, size);
      var lo, hi := (i - 1) * size, Least((i - 1) * size + size, |bytes[size..]|);
      assert bytes[size..][lo..hi] == bytes[lo + size..hi + size];
    } else if |bytes| > size {
      assert Pieces(bytes[size..], size) != [];
    }
  }

  // ----- Payloads -----

  datatype CompressedKVData = CompressedKVData(
    layerId: int, originalSize: int, compressedSize: int, metadata: Val,
    isChunked: bool, body: Option<Tensor>, chunks: seq<Tensor>, chunkMetadata: seq<Val>)

  datatype Mode = SingleBody | ByteChunks | ManagerChunks

  datatype Meta = Meta(
    isChunked: bool, layerId: int, originalSize: int, compressedSize: int, metadata: Val,
    chunkMetadata: seq<Val>, mode: Mode, spec: Option<(seq<nat>, Dtype)>, layout: Option<seq<Slot>>)

  datatype CompressedWire = CompressedWire(meta: Meta, chunks: seq<Tensor>, aux: seq<Tensor>)

  /** What the receiver rebuilds; the request id is looked up in the inner metadata. */
  datatype Restored = Restored(data: CompressedKVData, requestId: Result<Val>)

  function MetasTensors(ms: seq<Val>): seq<Tensor> {
    if ms == [] then [] else MetaTensors(ms[0]) + MetasTensors(ms[1..])
  }

  function PackMetas(ms: seq<Val>, n: nat): seq<Val> {
    if ms == [] then [] else [PackMeta(ms[0], n)] + PackMetas(ms[1..], n + |MetaTensors(ms[0])|)
  }

  function UnpackMetas(ms: seq<Val>, aux: seq<Tensor>): Result<seq<Val>> {
    if ms == [] then Ok([])
    else
      var head, tail := UnpackMeta(ms[0], aux), UnpackMetas(ms[1..], aux);
      if head.Ok? && tail.Ok? then Ok([head.value] + tail.value) else Failure
  }

  function AuxTensors(x: CompressedKVData): seq<Tensor> {
    MetaTensors(x.metadata) + (if x.isChunked then MetasTensors(x.chunkMetadata) else [])
  }

  ghost predicate Tensorless(ms: seq<Val>) {
    forall i :: 0 <= i < |ms| ==> !HasTensor(ms[i])
  }

  ghost predicate ValidData(x: CompressedKVData) {
    AllValid(AuxTensors(x)) && (x.body.Some? ==> x.body.value.Valid())
  }

  ghost function Build(x: CompressedKVData, maxChunkBytes: int): Result<CompressedWire>
    requires ValidData(x)
  {
    var side := Coalesce(AuxTensors(x));
    var metadata := PackMeta(x.metadata, 0);
    if x.isChunked then
      if x.chunks == [] || x.chunkMetadata == [] then Failure
      else
        var metas := PackMetas(x.chunkMetadata, |MetaTensors(x.metadata)|);
        if HasTensor(metadata) || !Tensorless(metas) then Failure
        else
          var meta := Meta(true, x.layerId, x.originalSize, x.compressedSize, metadata, metas, ManagerChunks, None, side.layout);
          Ok(CompressedWire(meta, x.chunks, side.tensors))
    else if x.body.None? then Failure
    else
      var body := x.body.value;
      var split := |body.bytes| > maxChunkBytes;
      var pieces := if split then Split(body, maxChunkBytes) else Ok([body]);
      if pieces.Failure? || HasTensor(metadata) then Failure
      else
        var meta := Meta(false, x.layerId, x.originalSize, x.compressedSize, metadata, [],
                         if split then ByteChunks else SingleBody, Some((body.shape, body.dtype)), side.layout);
        Ok(CompressedWire(meta, pieces.value, side.tensors))
  }

  function Restore(w: CompressedWire): Result<Restored> {
    var m := w.meta;
    match Expand(Side(w.aux, m.layout))
    case Failure => Failure
    case Ok(aux) =>
      match UnpackMeta(m.metadata, aux)
      case Failure => Failure
      case Ok(inner) =>
        var id := Lookup(inner, "request_id");
        if m.isChunked then
          match UnpackMetas(m.chunkMetadata, aux)
          case Failure => Failure
          case Ok(metas) => Ok(Restored(
            CompressedKVData(m.layerId, m.originalSize, m.compressedSize, inner, true, None, w.chunks, metas), id))
        else
          match RestoreBody(m, w.chunks)
          case Failure => Failure
          case Ok(body) => Ok(Restored(
            CompressedKVData(m.layerId, m.originalSize, m.compressedSize, inner, false, Some(body), [], []), id))
  }

  function RestoreBody(m: Meta, chunks: seq<Tensor>): Result<Tensor> {
    if chunks == [] then Failure
    else if m.mode.ByteChunks? then
      if m.spec.None? then Failure
      else View(Joined(chunks), Slot(0, |Joined(chunks)|, m.spec.value.0, m.spec.value.1))
    else Ok(chunks[0])
  }

  /** The body of a built payload: a body over the limit goes in stretches of exactly
      `maxChunkBytes` bytes, the last one shorter but not empty; any other body goes whole,
      and so do the manager's chunks. At most one side tensor goes with them. */
  lemma BuiltChunks(x: CompressedKVData, maxChunkBytes: int, i: nat)
    requires ValidData(x) && Build(x, maxChunkBytes).Ok? && i < |Build(x, maxChunkBytes).value.chunks|
    ensures var w := Build(x, maxChunkBytes).value; |w.aux| <= 1
    ensures var w := Build(x, maxChunkBytes).value;
      if x.isChunked then w.meta.mode == ManagerChunks && w.chunks == x.chunks
      else if |x.body.value.bytes| <= maxChunkBytes then w.meta.mode == SingleBody && w.chunks == [x.body.value]
      else
        && w.meta.mode == ByteChunks && maxChunkBytes > 0 && i * maxChunkBytes < |x.body.value.bytes|
        && w.chunks[i].bytes == x.body.value.bytes[i * maxChunkBytes..Least(i * maxChunkBytes + maxChunkBytes, |x.body.value.bytes|)]
        && 0 < |w.chunks[i].bytes| <= maxChunkBytes && Joined(w.chunks) == x.body.value.bytes
        && (i < |w.chunks| - 1 ==> |w.chunks[i].bytes| == maxChunkBytes)
  {
    hide AuxTensors, PackMeta, PackMetas, HasTensor, Pieces, Joined, Storage, Layout;
    if !x.isChunked && |x.body.value.bytes| > maxChunkBytes {
      PiecesJoin(x.body.value.bytes, maxChunkBytes);
      PieceAt(x.body.value.bytes, maxChunkBytes, i);
    }
  }

  // ----- Round trip -----

  function NormalMetas(ms: seq<Val>): seq<Val> {
    if ms == [] then [] else [NormalMeta(ms[0])] + NormalMetas(ms[1..])
  }

  predicate CleanMetas(ms: seq<Val>) {
    if ms == [] then true else CleanMeta(ms[0]) && CleanMetas(ms[1..])
  }

  predicate CleanData(x: CompressedKVData) {
    CleanMeta(x.metadata) && (x.isChunked ==> CleanMetas(x.chunkMetadata))
  }

  /** The payload with tuples as lists and without the fields its kind does not use. */
  function NormalData(x: CompressedKVData): CompressedKVData {
    if x.isChunked then x.(metadata := NormalMeta(x.metadata), body := None, chunkMetadata := NormalMetas(x.chunkMetadata))
    else x.(metadata := NormalMeta(x.metadata), chunks := [], chunkMetadata := [])
  }

  lemma UnpackFirst(v: Val, vs: seq<Val>, aux: seq<Tensor>, m: Val, ms: seq<Val>)
    ensures UnpackMetas([v] + vs, aux) == Ok([m] + ms) <==> UnpackMeta(v, aux) == Ok(m) && UnpackMetas(vs, aux) == Ok(ms)
  {
    hide UnpackMeta;
    assert ([v] + vs)[0] == v && ([v] + vs)[1..] == vs;
    var r := UnpackMetas([v] + vs, aux);
    assert r.Ok? ==> r.value[0] == UnpackMeta(v, aux).value && r.value[1..] == UnpackMetas(vs, aux).value;
    assert ([m] + ms)[0] == m && ([m] + ms)[1..] == ms;
  }

  lemma {:induction false} UnpackPackMetas(ms: seq<Val>, aux: seq<Tensor>, n: nat)
    requires Holds(aux, n, MetasTensors(ms))
    ensures UnpackMetas(PackMetas(ms, n), aux) == Ok(NormalMetas(ms)) <==> CleanMetas(ms)
  {
    if ms != [] {
      hide UnpackMeta, UnpackMetas, PackMeta, NormalMeta, CleanMeta, Holds, MetaTensors;
      var n' := n + |MetaTensors(ms[0])|;
      HoldsSplit(aux, n, MetaTensors(ms[0]), MetasTensors(ms[1..]));
      UnpackPackMeta(ms[0], aux, n);
      UnpackPackMetas(ms[1..], aux, n');
      UnpackFirst(PackMeta(ms[0], n), PackMetas(ms[1..], n'), aux, NormalMeta(ms[0]), NormalMetas(ms[1..]));
    }
  }

  lemma RequestIdKept(m: Val)
    ensures Lookup(NormalMeta(m), "request_id") == Lookup(m, "request_id")
  {
    if m.Dict? { FindNormal(m.entries, "request_id"); }
  }

  lemma BodyRestored(x: CompressedKVData, maxChunkBytes: int)
    requires ValidData(x) && !x.isChunked && Build(x, maxChunkBytes).Ok?
    ensures var w := Build(x, maxChunkBytes).value; RestoreBody(w.meta, w.chunks) == Ok(x.body.value)
  {
    hide Coalesce, PackMeta, HasTensor, AuxTensors;
    var body := x.body.value;
    if |body.bytes| > maxChunkBytes {
      PiecesJoin(body.bytes, maxChunkBytes);
      assert body.bytes[0..|body.bytes|] == body.bytes;
      assert Pieces(body.bytes, maxChunkBytes) != [];
    }
  }

  lemma SideRestored(x: CompressedKVData, maxChunkBytes: int)
    requires ValidData(x) && Build(x, maxChunkBytes).Ok?
    ensures var w := Build(x, maxChunkBytes).value; Expand(Side(w.aux, w.meta.layout)) == Ok(AuxTensors(x))
  {
    hide Expand, PackMeta, PackMetas, HasTensor, Tensorless, Split, AuxTensors, Coalesce;
    ExpandCoalesce(AuxTensors(x));
  }

  /** What is built is restored, for every kind of payload, exactly when no list in
      the quantization parameters looks like a placeholder; and nothing built
      carries a tensor in its metadata. */
  lemma WireRoundTrip(x: CompressedKVData, maxChunkBytes: int)
    requires ValidData(x) && Build(x, maxChunkBytes).Ok?
    ensures var w := Build(x, maxChunkBytes).value;
      && !HasTensor(w.meta.metadata) && Tensorless(w.meta.chunkMetadata)
      && (Restore(w) == Ok(Restored(NormalData(x), Lookup(x.metadata, "request_id"))) <==> CleanData(x))
  {
    hide Expand, Coalesce, PackMeta, UnpackMeta, NormalMeta, CleanMeta, UnpackMetas, PackMetas, NormalMetas, CleanMetas, Lookup, HasTensor;
    hide RestoreBody, MetasTensors, MetaTensors, AllValid;
    var aux, n := AuxTensors(x), |MetaTensors(x.metadata)|;
    SideRestored(x, maxChunkBytes);
    assert Holds(aux, 0, aux);
    if x.isChunked {
      HoldsSplit(aux, 0, MetaTensors(x.metadata), MetasTensors(x.chunkMetadata));
      UnpackPackMetas(x.chunkMetadata, aux, n);
    } else {
      assert aux == MetaTensors(x.metadata);
      BodyRestored(x, maxChunkBytes);
    }
    UnpackPackMeta(x.metadata, aux, 0);
    RequestIdKept(x.metadata);
  }

  lemma {:induction false} PackMetasKeepOutside(ms: seq<Val>, n: nat)
    ensures Tensorless(PackMetas(ms, n)) <==> forall i :: 0 <= i < |ms| ==> Outside(ms[i]) == []
  {
    if ms != [] {
      hide PackMeta, Outside, HasTensor, MetaTensors;
      var k := n + |MetaTensors(ms[0])|;
      NoTensorOutside(ms[0], n);
      PackMetasKeepOutside(ms[1..], k);
      var p := PackMetas(ms, n);
      assert p[0] == PackMeta(ms[0], n) && p[1..] == PackMetas(ms[1..], k);
      assert Tensorless(p) <==> !HasTensor(p[0]) && Tensorless(p[1..]) by { TensorlessFirst(p); }
      assert (forall i :: 0 <= i < |ms| ==> Outside(ms[i]) == []) <==>
             Outside(ms[0]) == [] && (forall i :: 0 <= i < |ms[1..]| ==> Outside(ms[1..][i]) == []) by { OutsideFirst(ms); }
    }
  }

  lemma TensorlessFirst(p: seq<Val>)
    requires p != []
    ensures Tensorless(p) <==> !HasTensor(p[0]) && Tensorless(p[1..])
  {
    hide HasTensor;
    if !HasTensor(p[0]) && Tensorless(p[1..]) {
      forall i | 0 <= i < |p| ensures !HasTensor(p[i]) { if i > 0 { assert p[i] == p[1..][i - 1]; } }
    }
  }

  lemma OutsideFirst(ms: seq<Val>)
    requires ms != []
    ensures (forall i :: 0 <= i < |ms| ==> Outside(ms[i]) == []) <==>
            Outside(ms[0]) == [] && (forall i :: 0 <= i < |ms[1..]| ==> Outside(ms[1..][i]) == [])
  {
    hide Outside;
    if Outside(ms[0]) == [] && (forall i :: 0 <= i < |ms[1..]| ==> Outside(ms[1..][i]) == []) {
      forall i | 0 <= i < |ms| ensures Outside(ms[i]) == [] { if i > 0 { assert ms[i] == ms[1..][i - 1]; } }
    }
  }

  lemma NoTensorOutside(m: Val, n: nat)
    ensures HasTensor(PackMeta(m, n)) <==> Outside(m) != []
  {
    hide PackMeta, Outside, Tensors;
    PackKeepsOutside(m, n);
  }

  ghost predicate ChunksUsable(x: CompressedKVData) {
    x.chunks != [] && x.chunkMetadata != [] && forall i :: 0 <= i < |x.chunkMetadata| ==> Outside(x.chunkMetadata[i]) == []
  }

  predicate BodyUsable(x: CompressedKVData, maxChunkBytes: int) {
    && x.body.Some?
    && (|x.body.value.bytes| <= maxChunkBytes || (maxChunkBytes > 0 && (x.body.value.shape != [] || x.body.value.dtype.itemsize == 1)))
  }

  /** Building fails exactly when the body or chunks are missing, a body over the limit
      cannot be split, or a tensor sits outside the quantization parameters. */
  lemma BuildSucceeds(x: CompressedKVData, maxChunkBytes: int)
    requires ValidData(x)
    ensures Build(x, maxChunkBytes).Ok? <==> Outside(x.metadata) == [] && (if x.isChunked then ChunksUsable(x) else BodyUsable(x, maxChunkBytes))
  {
    hide PackMeta, Outside, HasTensor, PackMetas, Tensorless, Coalesce, AuxTensors;
    NoTensorOutside(x.metadata, 0);
    PackMetasKeepOutside(x.chunkMetadata, |MetaTensors(x.metadata)|);
  }

  /** Quantization parameters that hold the placeholder's own name and a number. */
  const IMPOSTOR := CompressedKVData(
    0, 1, 1, Dict(Entry(QPARAMS, List(Cons(Str(PLACEHOLDER), Cons(Int(0), Nil))), End)), false, Some(Flat([7])), [], [])

  /** Such a list is built into a payload and cannot be restored from it. */
  lemma ImpostorIsLost()
    ensures ValidData(IMPOSTOR) && Build(IMPOSTOR, 8).Ok? && Restore(Build(IMPOSTOR, 8).value) == Failure
  {
    var m := IMPOSTOR.metadata;
    var qparams := m.entries.value;
    assert ItemTensors(Cons(Int(0), Nil)) == [] && ItemTensors(qparams.items) == [];
    assert AuxTensors(IMPOSTOR) == [];
    assert Flat([7]).Valid() by { assert Numel([1]) == 1 * Numel([1][1..]); }
    BuildSucceeds(IMPOSTOR, 8);
    assert Pack(qparams, 0) == qparams by {
      assert PackItems(Cons(Int(0), Nil), 0) == Cons(Int(0), Nil);
      assert PackItems(qparams.items, 0) == qparams.items;
    }
    assert PackMeta(m, 0) == m;
    assert Unpack(qparams, []) == Failure;
  }
}
