/** Chunked and unchunked layer compression of
    kvserve_v1/compression/compression_manager.py, for arbitrary stage functions.
    A layer is a flat list of head vectors [2, tokens, heads]. */
module LayerPipeline {
  import opened Numbers
  import opened Wrappers
  import opened Powers
  import opened LayerLayout

  type Cell = seq<int>
  type Layer = seq<Cell>
  type Buffer = seq<Cell>

  /** Quantization parameters, as their numbers. */
  type Params = seq<int>

  const CHUNK_SIZE: nat := 8
  const CHUNK_THRESHOLD: nat := 500 * 1024 * 1024

  datatype Shape = Shape(tokens: nat, heads: nat)
  {
    function Size(): nat { 2 * (tokens * heads) }
    predicate Valid() { tokens > 0 && heads > 0 }
  }

  /** The components of the pipeline; `encode` answers None where the codec raises. */
  datatype Stages = Stages(
    transform: (nat, Layer) -> Layer,
    inverse: (nat, Layer) -> Layer,
    quantize: (nat, Layer) -> (Layer, Params),
    dequantize: (nat, Layer, Params) -> Layer,
    encode: (int, Buffer) -> Option<Buffer>,
    decode: (int, Buffer, nat) -> Buffer)

  datatype Config = Config(
    enabled: bool, transformer: bool, quantizer: bool, codec: bool,
    permuted: bool, supportsOut: bool, minCompressSize: nat)
  {
    /** The quantizer writes straight into the native buffer. */
    predicate Direct() { quantizer && !transformer && supportsOut }

    predicate HasPipeline() { transformer || quantizer || codec }
  }

  datatype Chunk = Chunk(
    body: Buffer, start: nat, count: nat, permuted: bool, params: seq<Params>, codecApplied: bool, size: nat)

  datatype Payload = Whole(chunk: Chunk) | Chunked(chunks: seq<Chunk>)

  // ----- One layer -----

  function Transformed(st: Stages, cfg: Config, id: nat, x: Layer): Layer {
    if cfg.transformer then st.transform(id, x) else x
  }

  function Processed(st: Stages, cfg: Config, id: nat, x: Layer): Layer {
    if cfg.quantizer then st.quantize(id, Transformed(st, cfg, id, x)).0 else Transformed(st, cfg, id, x)
  }

  function ParamsOf(st: Stages, cfg: Config, id: nat, x: Layer): seq<Params> {
    if cfg.quantizer then [st.quantize(id, Transformed(st, cfg, id, x)).1] else []
  }

  /** Dequantize with the layer's own parameters, then invert the transform. */
  function Undone(st: Stages, cfg: Config, id: nat, y: Layer, params: seq<Params>, i: nat): Option<Layer> {
    if cfg.quantizer && i >= |params| then None
    else
      var z := if cfg.quantizer then st.dequantize(id, y, params[i]) else y;
      Some(if cfg.transformer then st.inverse(id, z) else z)
  }

  /** What a layer means after the whole pipeline: every stage undone with the layer's
      own id and parameters, no matter how the layers were grouped or laid out. */
  function Meaning(st: Stages, cfg: Config, id: nat, x: Layer): Layer {
    var t := if cfg.transformer then st.transform(id, x) else x;
    var z := if cfg.quantizer then st.dequantize(id, st.quantize(id, t).0, st.quantize(id, t).1) else t;
    if cfg.transformer then st.inverse(id, z) else z
  }

  lemma UndoneIsMeaning(st: Stages, cfg: Config, id: nat, x: Layer, params: seq<Params>, i: nat)
    requires cfg.quantizer ==> i < |params| && [params[i]] == ParamsOf(st, cfg, id, x)
    ensures Undone(st, cfg, id, Processed(st, cfg, id, x), params, i) == Some(Meaning(st, cfg, id, x))
  {
    if cfg.quantizer { assert params[i] == ParamsOf(st, cfg, id, x)[0]; }
  }

  /** Stages keep the size of a layer, as the copies into preallocated buffers demand. */
  ghost predicate Sized(st: Stages, n: nat) {
    && (forall id, x :: |x| == n ==> |st.transform(id, x)| == n)
    && (forall id, x :: |x| == n ==> |st.quantize(id, x).0| == n)
  }

  /** What the codec encodes it decodes, whatever layer id is passed to either. */
  ghost predicate Lossless(st: Stages) {
    forall id, id', x :: st.encode(id, x).Some? ==> st.decode(id', st.encode(id, x).value, |x|) == x
  }

  ghost predicate Layers(layers: seq<Layer>, n: nat) {
    forall i :: 0 <= i < |layers| ==> |layers[i]| == n
  }

  // ----- The buffer handed to the codec -----

  function Native(st: Stages, cfg: Config, layers: seq<Layer>, start: nat, count: nat): Buffer
    requires start + count <= |layers|
  {
    if count == 0 then []
    else Native(st, cfg, layers, start, count - 1) + Processed(st, cfg, start + count - 1, layers[start + count - 1])
  }

  function AllParams(st: Stages, cfg: Config, layers: seq<Layer>, start: nat, count: nat): seq<Params>
    requires start + count <= |layers|
  {
    if count == 0 then []
    else AllParams(st, cfg, layers, start, count - 1) + ParamsOf(st, cfg, start + count - 1, layers[start + count - 1])
  }

  lemma ProcessedSize(st: Stages, cfg: Config, id: nat, x: Layer, n: nat)
    requires Sized(st, n) && |x| == n
    ensures |Processed(st, cfg, id, x)| == n
  {
  }

  lemma {:induction false} NativeSize(st: Stages, cfg: Config, layers: seq<Layer>, start: nat, count: nat, n: nat)
    requires start + count <= |layers| && Layers(layers, n) && Sized(st, n)
    ensures |Native(st, cfg, layers, start, count)| == count * n
  {
    hide Sized, Processed;
    if count > 0 {
      NativeSize(st, cfg, layers, start, count - 1, n);
      ProcessedSize(st, cfg, start + count - 1, layers[start + count - 1], n);
      assert count * n == (count - 1) * n + n;
    }
  }

  lemma Steps(i: nat, count: nat, n: nat)
    requires i < count
    ensures (i + 1) * n == i * n + n && (i + 1) * n <= count * n
  {
    MulNext(i, n);
    MulMonotone(i + 1, count, n);
  }

  lemma Slices(a: Buffer, b: Buffer, lo: nat, hi: nat)
    requires lo <= hi <= |a|
    ensures (a + b)[lo..hi] == a[lo..hi] && (a + b)[|a|..|a| + |b|] == b
  {
  }

  lemma NativeLast(st: Stages, cfg: Config, layers: seq<Layer>, start: nat, count: nat)
    requires 0 < count && start + count <= |layers|
    ensures Native(st, cfg, layers, start, count)
         == Native(st, cfg, layers, start, count - 1) + Processed(st, cfg, start + count - 1, layers[start + count - 1])
  {
  }

  lemma {:induction false} NativeSlice(st: Stages, cfg: Config, layers: seq<Layer>, start: nat, count: nat, n: nat, i: nat)
    requires i < count && start + count <= |layers| && Layers(layers, n) && Sized(st, n)
    ensures |Native(st, cfg, layers, start, count)| == count * n && i * n <= (i + 1) * n <= count * n
    ensures Native(st, cfg, layers, start, count)[i * n..(i + 1) * n] == Processed(st, cfg, start + i, layers[start + i])
  {
    hide Sized, Processed, Native;
    NativeSize(st, cfg, layers, start, count, n);
    NativeSize(st, cfg, layers, start, count - 1, n);
    NativeLast(st, cfg, layers, start, count);
    ProcessedSize(st, cfg, start + count - 1, layers[start + count - 1], n);
    Steps(i, count, n);
    Steps(count - 1, count, n);
    var before, last := Native(st, cfg, layers, start, count - 1), Processed(st, cfg, start + count - 1, layers[start + count - 1]);
    if i < count - 1 {
      Steps(i, count - 1, n);
      NativeSlice(st, cfg, layers, start, count - 1, n, i);
      Slices(before, last, i * n, (i + 1) * n);
    } else {
      Slices(before, last, 0, 0);
    }
  }

  lemma {:induction false} AllParamsAt(st: Stages, cfg: Config, layers: seq<Layer>, start: nat, count: nat, i: nat)
    requires i < count && start + count <= |layers| && cfg.quantizer
    ensures |AllParams(st, cfg, layers, start, count)| == count
    ensures [AllParams(st, cfg, layers, start, count)[i]] == ParamsOf(st, cfg, start + i, layers[start + i])
  {
    if count > 1 { AllParamsAt(st, cfg, layers, start, count - 1, if i < count - 1 then i else 0); }
  }

  lemma WholeSlabs(x: Buffer, shape: Shape, k: nat)
    requires shape.Valid() && |x| == k * shape.Size()
    ensures Slabs(x, shape.tokens, shape.heads) && Slabs(x, shape.heads, shape.tokens)
  {
    assert k * (2 * (shape.tokens * shape.heads)) == (2 * k) * (shape.tokens * shape.heads);
    assert |x| == (2 * k) * (shape.heads * shape.tokens);
  }

  /** The codec's buffer: the processed layers, permuted or not. */
  ghost function CodecBuffer(native: Buffer, cfg: Config, shape: Shape): (r: Buffer)
    requires Slabs(native, shape.tokens, shape.heads)
    ensures |r| == |native|
  {
    if cfg.permuted then Swap(native, shape.tokens, shape.heads) else native
  }

  /** `_handle_codec_compression`: a codec that raises leaves the buffer as it is. */
  function Coded(st: Stages, cfg: Config, id: int, buffer: Buffer): (Buffer, bool) {
    if cfg.codec && st.encode(id, buffer).Some? then (st.encode(id, buffer).value, true) else (buffer, false)
  }

  ghost predicate IsChunk(st: Stages, cfg: Config, shape: Shape, layers: seq<Layer>, start: nat, count: nat, c: Chunk) {
    && start + count <= |layers|
    && var native := Native(st, cfg, layers, start, count);
       && Slabs(native, shape.tokens, shape.heads)
       && var buffer := CodecBuffer(native, cfg, shape);
          && c.start == start && c.count == count && c.permuted == cfg.permuted && c.size == |buffer|
          && c.params == AllParams(st, cfg, layers, start, count)
          && (c.body, c.codecApplied) == Coded(st, cfg, start + count - 1, buffer)
  }

  // ----- Decompression -----

  /** `_handle_codec_decompression` and the bulk inverse permutation. */
  ghost function Decoded(st: Stages, cfg: Config, shape: Shape, c: Chunk): Option<Buffer> {
    var buffer := if cfg.codec && c.codecApplied then st.decode(c.start, c.body, c.size) else c.body;
    if !shape.Valid() || |buffer| != c.count * shape.Size() then None
    else
      WholeSlabs(buffer, shape, c.count);
      Some(if c.permuted then Swap(buffer, shape.heads, shape.tokens) else buffer)
  }

  lemma DecodedIsNative(st: Stages, cfg: Config, shape: Shape, layers: seq<Layer>, start: nat, count: nat, c: Chunk)
    requires Lossless(st) && Sized(st, shape.Size()) && shape.Valid() && Layers(layers, shape.Size())
    requires IsChunk(st, cfg, shape, layers, start, count, c)
    ensures Decoded(st, cfg, shape, c) == Some(Native(st, cfg, layers, start, count))
  {
    hide Sized, Swap, Slabs, Native;
    NativeSize(st, cfg, layers, start, count, shape.Size());
    SwapInverse(Native(st, cfg, layers, start, count), shape.tokens, shape.heads);
  }

  /** Layer i of a flat buffer of layers of size n. */
  function LayerAt(native: Buffer, n: nat, i: nat): Layer {
    if i * n <= (i + 1) * n <= |native| then native[i * n..(i + 1) * n] else []
  }

  /** The dequantize and inverse-transform loop over a chunk's first k layers. */
  function UndoneLayers(st: Stages, cfg: Config, native: Buffer, start: nat, params: seq<Params>, n: nat, k: nat): Option<seq<Layer>>
    decreases k
  {
    if k == 0 then Some([])
    else
      var before := UndoneLayers(st, cfg, native, start, params, n, k - 1);
      var last := Undone(st, cfg, start + k - 1, LayerAt(native, n, k - 1), params, k - 1);
      if before.None? || last.None? then None else Some(before.value + [last.value])
  }

  function Meanings(st: Stages, cfg: Config, layers: seq<Layer>, start: nat, count: nat): seq<Layer>
    requires start + count <= |layers|
  {
    if count == 0 then []
    else Meanings(st, cfg, layers, start, count - 1) + [Meaning(st, cfg, start + count - 1, layers[start + count - 1])]
  }

  lemma NativeAt(st: Stages, cfg: Config, layers: seq<Layer>, start: nat, count: nat, n: nat, i: nat)
    requires i < count && start + count <= |layers| && Layers(layers, n) && Sized(st, n)
    ensures LayerAt(Native(st, cfg, layers, start, count), n, i) == Processed(st, cfg, start + i, layers[start + i])
  {
    hide Sized, Processed, Native;
    NativeSlice(st, cfg, layers, start, count, n, i);
  }

  /** One layer of a chunk comes back as its meaning. */
  lemma LayerMeaning(st: Stages, cfg: Config, layers: seq<Layer>, start: nat, count: nat, n: nat, i: nat)
    requires i < count && start + count <= |layers| && Layers(layers, n) && Sized(st, n)
    ensures Undone(st, cfg, start + i, LayerAt(Native(st, cfg, layers, start, count), n, i), AllParams(st, cfg, layers, start, count), i)
         == Some(Meaning(st, cfg, start + i, layers[start + i]))
  {
    hide Sized, Processed, Meaning, Undone, Native, AllParams, ParamsOf, LayerAt;
    NativeAt(st, cfg, layers, start, count, n, i);
    if cfg.quantizer { AllParamsAt(st, cfg, layers, start, count, i); }
    UndoneIsMeaning(st, cfg, start + i, layers[start + i], AllParams(st, cfg, layers, start, count), i);
  }

  lemma {:induction false} UndoneAreMeanings(st: Stages, cfg: Config, layers: seq<Layer>, start: nat, count: nat, n: nat, k: nat)
    requires start + count <= |layers| && Layers(layers, n) && Sized(st, n) && k <= count
    ensures UndoneLayers(st, cfg, Native(st, cfg, layers, start, count), start, AllParams(st, cfg, layers, start, count), n, k)
         == Some(Meanings(st, cfg, layers, start, k))
    decreases k
  {
    hide Sized, Meaning, Undone, Native, AllParams, LayerAt, Layers;
    if k > 0 {
      UndoneAreMeanings(st, cfg, layers, start, count, n, k - 1);
      LayerMeaning(st, cfg, layers, start, count, n, k - 1);
    }
  }

  ghost function Restored(st: Stages, cfg: Config, shape: Shape, c: Chunk): Option<seq<Layer>> {
    match Decoded(st, cfg, shape, c)
    case None => None
    case Some(native) =>
      if |native| != c.count * shape.Size() then None
      else UndoneLayers(st, cfg, native, c.start, c.params, shape.Size(), c.count)
  }

  /** One chunk, in either layout, quantized directly or not, encoded or passed through:
      its layers come back as their meanings. */
  lemma ChunkMeaning(st: Stages, cfg: Config, shape: Shape, layers: seq<Layer>, start: nat, count: nat, c: Chunk)
    requires Lossless(st) && Sized(st, shape.Size()) && shape.Valid() && Layers(layers, shape.Size())
    requires IsChunk(st, cfg, shape, layers, start, count, c)
    ensures Restored(st, cfg, shape, c) == Some(Meanings(st, cfg, layers, start, count))
  {
    hide Sized, Lossless, Native, AllParams, UndoneLayers, Meanings, Decoded;
    DecodedIsNative(st, cfg, shape, layers, start, count, c);
    NativeSize(st, cfg, layers, start, count, shape.Size());
    UndoneAreMeanings(st, cfg, layers, start, count, shape.Size(), count);
  }

  // ----- What is handed over, and what comes back, stage by stage -----

  /** y is layer x as the stages that are switched on leave it, in their order. */
  ghost predicate Staged(st: Stages, cfg: Config, id: nat, x: Layer, y: Layer) {
    && (cfg.transformer && cfg.quantizer ==> y == st.quantize(id, st.transform(id, x)).0)
    && (!cfg.transformer && cfg.quantizer ==> y == st.quantize(id, x).0)
    && (cfg.transformer && !cfg.quantizer ==> y == st.transform(id, x))
    && (!cfg.transformer && !cfg.quantizer ==> y == x)
  }

  /** Layer i of the native buffer in terms of the stages alone. */
  lemma NativeHolds(st: Stages, cfg: Config, layers: seq<Layer>, start: nat, count: nat, n: nat, i: nat)
    requires i < count && start + count <= |layers| && Layers(layers, n) && Sized(st, n)
    ensures var y := LayerAt(Native(st, cfg, layers, start, count), n, i);
      |y| == n && Staged(st, cfg, start + i, layers[start + i], y)
  {
    hide Native, LayerAt;
    NativeAt(st, cfg, layers, start, count, n, i);
    ProcessedSize(st, cfg, start + i, layers[start + i], n);
  }

  /** The quantization parameters kept for layer i of a chunk. */
  lemma ParamsHold(st: Stages, cfg: Config, layers: seq<Layer>, start: nat, count: nat, i: nat)
    requires i < count && start + count <= |layers| && cfg.quantizer
    ensures var id, params := start + i, AllParams(st, cfg, layers, start, count);
      && |params| == count
      && params[i] == (if cfg.transformer then st.quantize(id, st.transform(id, layers[id])).1 else st.quantize(id, layers[id]).1)
  {
    hide AllParams;
    AllParamsAt(st, cfg, layers, start, count, i);
    var params := AllParams(st, cfg, layers, start, count);
    assert [params[i]][0] == ParamsOf(st, cfg, start + i, layers[start + i])[0];
  }

  /** Where slab s, token t, head h of layer i lies in a codec buffer: tokens outside heads
      in the native layout, heads outside tokens in the permuted one. */
  function CellIndex(shape: Shape, permuted: bool, i: nat, s: nat, t: nat, h: nat): nat {
    Join(i, shape.Size(),
      if permuted then Join(Join(s, shape.heads, h), shape.tokens, t) else Join(Join(s, shape.tokens, t), shape.heads, h))
  }

  lemma IndexIs(shape: Shape, i: nat, s: nat, t: nat, h: nat)
    ensures CellIndex(shape, false, i, s, t, h) == Join(Join(s + 2 * i, shape.tokens, t), shape.heads, h)
    ensures CellIndex(shape, true, i, s, t, h) == Join(Join(s + 2 * i, shape.heads, h), shape.tokens, t)
  {
    NextSlabs(s, h, t, shape.tokens, shape.heads, 2 * i);
    NextSlabs(s, t, h, shape.heads, shape.tokens, 2 * i);
    LayerOffset(i, shape);
    JoinIs(i, shape.Size(), Join(Join(s, shape.heads, h), shape.tokens, t));
    JoinIs(i, shape.Size(), Join(Join(s, shape.tokens, t), shape.heads, h));
    hide Join;
  }

  lemma JoinIs(a: nat, n: nat, b: nat)
    ensures Join(a, n, b) == a * n + b
  {
  }

  lemma LayerOffset(i: nat, shape: Shape)
    ensures i * shape.Size() == 2 * i * (shape.tokens * shape.heads) && 2 * i * (shape.tokens * shape.heads) == 2 * i * (shape.heads * shape.tokens)
  {
  }

  /** Every cell of the buffer handed to the codec. */
  lemma CodecBufferAt(native: Buffer, cfg: Config, shape: Shape, count: nat, i: nat, s: nat, t: nat, h: nat)
    requires shape.Valid() && |native| == count * shape.Size() && i < count && s < 2 && t < shape.tokens && h < shape.heads
    ensures Slabs(native, shape.tokens, shape.heads)
    ensures CellIndex(shape, cfg.permuted, i, s, t, h) < |native| && CellIndex(shape, false, i, s, t, h) < |native|
    ensures CodecBuffer(native, cfg, shape)[CellIndex(shape, cfg.permuted, i, s, t, h)] == native[CellIndex(shape, false, i, s, t, h)]
  {
    hide Swap, Slabs, CellIndex, Join;
    WholeSlabs(native, shape, count);
    IndexIs(shape, i, s, t, h);
    LayerOffset(count, shape);
    SwapAt(native, shape.tokens, shape.heads, 2 * count, s + 2 * i, h, t);
  }

  lemma LayerCell(native: Buffer, n: nat, count: nat, i: nat, b: nat)
    requires |native| == count * n && i < count && b < n
    ensures |LayerAt(native, n, i)| == n && i * n + b < |native| && LayerAt(native, n, i)[b] == native[i * n + b]
  {
    Steps(i, count, n);
  }

  lemma CellInLayer(shape: Shape, s: nat, t: nat, h: nat)
    requires s < 2 && t < shape.tokens && h < shape.heads
    ensures Join(Join(s, shape.tokens, t), shape.heads, h) < shape.Size()
  {
    InSlabs(s, t, h, shape.heads, shape.tokens, 2);
  }

  lemma FirstLayer(shape: Shape, s: nat, t: nat, h: nat)
    ensures CellIndex(shape, false, 0, s, t, h) == Join(Join(s, shape.tokens, t), shape.heads, h)
  {
    JoinIs(0, shape.Size(), Join(Join(s, shape.tokens, t), shape.heads, h));
    hide Join;
  }

  /** One chunk, cell by cell: the codec gets, at the place its layout says, the cell of
      the layer as the stages leave it; it is asked with the last layer's id, and what it
      refuses is sent as it is. */
  lemma ChunkHolds(st: Stages, cfg: Config, shape: Shape, layers: seq<Layer>, start: nat, count: nat, c: Chunk, i: nat, s: nat, t: nat, h: nat)
    returns (y: Layer)
    requires Sized(st, shape.Size()) && shape.Valid() && Layers(layers, shape.Size())
    requires IsChunk(st, cfg, shape, layers, start, count, c) && i < count && s < 2 && t < shape.tokens && h < shape.heads
    ensures c.start == start && c.count == count && c.permuted == cfg.permuted
    ensures Staged(st, cfg, start + i, layers[start + i], y)
    ensures var b := CodecBuffer(Native(st, cfg, layers, start, count), cfg, shape);
      var m, k := CellIndex(shape, cfg.permuted, i, s, t, h), CellIndex(shape, false, 0, s, t, h);
      && |b| == c.size && m < |b| && k < |y| && b[m] == y[k]
      && (c.codecApplied <==> cfg.codec && st.encode(start + count - 1, b).Some?)
      && (if c.codecApplied then st.encode(start + count - 1, b) == Some(c.body) else c.body == b)
    ensures c.size == count * shape.Size()
  {
    hide Native, LayerAt, AllParams, Slabs, Swap, CodecBuffer, Staged, Join;
    var n, native := shape.Size(), Native(st, cfg, layers, start, count);
    y := LayerAt(native, n, i);
    NativeSize(st, cfg, layers, start, count, n);
    NativeHolds(st, cfg, layers, start, count, n, i);
    CellInLayer(shape, s, t, h);
    FirstLayer(shape, s, t, h);
    LayerCell(native, n, count, i, CellIndex(shape, false, 0, s, t, h));
    JoinIs(i, n, CellIndex(shape, false, 0, s, t, h));
    CodecBufferAt(native, cfg, shape, count, i, s, t, h);
  }

  // ----- The compressor's loops -----

  method ProcessLayer(st: Stages, cfg: Config, id: nat, x: Layer) returns (y: Layer, params: seq<Params>)
    ensures y == Processed(st, cfg, id, x) && params == ParamsOf(st, cfg, id, x)
  {
    y, params := x, [];
    if cfg.transformer { y := st.transform(id, y); }
    if cfg.quantizer {
      var q := st.quantize(id, y);
      y, params := q.0, [q.1];
    }
  }

  /** The contiguous copy of a permuted view. */
  method Permute(x: Buffer, T: nat, H: nat) returns (r: Buffer)
    requires Slabs(x, T, H)
    ensures r == Swap(x, T, H)
  {
    hide From, Taken, Slabs;
    SlabsPositive(x, T, H);
    var out := new Cell[|x|];
    var i := 0;
    while i < |x|
      invariant 0 <= i <= |x|
      invariant forall k :: 0 <= k < i ==> out[k] == Taken(x, T, H, k)
    {
      TakenIs(x, T, H, i);
      out[i] := x[From(i, T, H)];
      i := i + 1;
    }
    r := out[..];
  }

  /** `_quantize_layers_direct`, then at most one bulk permutation. */
  method FillDirect(st: Stages, cfg: Config, shape: Shape, layers: seq<Layer>, start: nat, count: nat)
    returns (buffer: Buffer, params: seq<Params>)
    requires cfg.Direct() && start + count <= |layers| && shape.Valid()
    requires Sized(st, shape.Size()) && Layers(layers, shape.Size())
    ensures Slabs(Native(st, cfg, layers, start, count), shape.tokens, shape.heads)
    ensures buffer == CodecBuffer(Native(st, cfg, layers, start, count), cfg, shape)
    ensures params == AllParams(st, cfg, layers, start, count)
  {
    hide Sized, Processed, ParamsOf, Swap, Slabs;
    buffer, params := [], [];
    var i := 0;
    while i < count
      invariant 0 <= i <= count
      invariant buffer == Native(st, cfg, layers, start, i) && params == AllParams(st, cfg, layers, start, i)
    {
      var y, p := ProcessLayer(st, cfg, start + i, layers[start + i]);
      buffer, params := buffer + y, params + p;
      i := i + 1;
    }
    NativeSize(st, cfg, layers, start, count, shape.Size());
    WholeSlabs(buffer, shape, count);
    if cfg.permuted { buffer := Permute(buffer, shape.tokens, shape.heads); }
  }

  /** One layer packed into the codec's buffer behind those already there. */
  lemma PackStep(native: Buffer, y: Layer, cfg: Config, shape: Shape, k: nat)
    requires shape.Valid() && |native| == k * shape.Size() && |y| == shape.Size()
    ensures Slabs(native, shape.tokens, shape.heads) && Slabs(y, shape.tokens, shape.heads)
    ensures Slabs(native + y, shape.tokens, shape.heads)
    ensures CodecBuffer(native + y, cfg, shape) == CodecBuffer(native, cfg, shape) + CodecBuffer(y, cfg, shape)
  {
    hide Swap, Slabs;
    WholeSlabs(native, shape, k);
    WholeSlabs(y, shape, 1);
    SwapAppend(native, y, shape.tokens, shape.heads);
  }

  /** The general path: layer by layer, each permuted as it is packed. */
  method FillByLayer(st: Stages, cfg: Config, shape: Shape, layers: seq<Layer>, start: nat, count: nat)
    returns (buffer: Buffer, params: seq<Params>)
    requires start + count <= |layers| && shape.Valid()
    requires Sized(st, shape.Size()) && Layers(layers, shape.Size())
    ensures Slabs(Native(st, cfg, layers, start, count), shape.tokens, shape.heads)
    ensures buffer == CodecBuffer(Native(st, cfg, layers, start, count), cfg, shape)
    ensures params == AllParams(st, cfg, layers, start, count)
  {
    hide Sized, Processed, ParamsOf, Swap, Slabs;
    buffer, params := [], [];
    var i := 0;
    NothingPacked(cfg, shape);
    while i < count
      invariant 0 <= i <= count
      invariant Slabs(Native(st, cfg, layers, start, i), shape.tokens, shape.heads)
      invariant buffer == CodecBuffer(Native(st, cfg, layers, start, i), cfg, shape)
      invariant params == AllParams(st, cfg, layers, start, i)
    {
      var y, p := ProcessLayer(st, cfg, start + i, layers[start + i]);
      ProcessedSize(st, cfg, start + i, layers[start + i], shape.Size());
      NativeSize(st, cfg, layers, start, i, shape.Size());
      PackStep(Native(st, cfg, layers, start, i), y, cfg, shape, i);
      if cfg.permuted { y := Permute(y, shape.tokens, shape.heads); }
      buffer, params := buffer + y, params + p;
      i := i + 1;
    }
  }

  lemma NothingPacked(cfg: Config, shape: Shape)
    requires shape.Valid()
    ensures Slabs<Cell>([], shape.tokens, shape.heads) && CodecBuffer([], cfg, shape) == []
  {
    var none: Buffer := [];
    assert |none| == 0 * (shape.tokens * shape.heads);
  }

  /** A chunk of layers through stages and codec.  Without the direct path the first
      layer is processed ahead of the loop, so an empty range fails. */
  method CompressRange(st: Stages, cfg: Config, shape: Shape, layers: seq<Layer>, start: nat, count: nat)
    returns (c: Option<Chunk>)
    requires start + count <= |layers| && shape.Valid()
    requires Sized(st, shape.Size()) && Layers(layers, shape.Size())
    ensures c.None? <==> count == 0 && !cfg.Direct()
    ensures c.Some? ==> IsChunk(st, cfg, shape, layers, start, count, c.value)
  {
    hide Sized, Swap, Slabs, Native, AllParams, CodecBuffer;
    var buffer, params;
    if cfg.Direct() {
      buffer, params := FillDirect(st, cfg, shape, layers, start, count);
    } else {
      if count == 0 { return None; }
      buffer, params := FillByLayer(st, cfg, shape, layers, start, count);
    }
    var coded := Coded(st, cfg, start + count - 1, buffer);
    return Some(Chunk(coded.0, start, count, cfg.permuted, params, coded.1, |buffer|));
  }

  // ----- All layers -----

  ghost predicate AreChunks(st: Stages, cfg: Config, shape: Shape, layers: seq<Layer>, chunks: seq<Chunk>) {
    forall k :: 0 <= k < |chunks| ==>
      && k * CHUNK_SIZE < |layers|
      && IsChunk(st, cfg, shape, layers, k * CHUNK_SIZE, Least(CHUNK_SIZE, |layers| - k * CHUNK_SIZE), chunks[k])
  }

  /** What `compress_all_layers` may hand on. */
  ghost predicate IsPayload(st: Stages, cfg: Config, shape: Shape, layers: seq<Layer>, p: Payload) {
    match p
    case Whole(c) => IsChunk(st, cfg, shape, layers, 0, |layers|, c)
    case Chunked(chunks) =>
      && AreChunks(st, cfg, shape, layers, chunks)
      && |chunks| == (|layers| + CHUNK_SIZE - 1) / CHUNK_SIZE
  }

  method CompressChunked(st: Stages, cfg: Config, shape: Shape, layers: seq<Layer>) returns (chunks: seq<Chunk>)
    requires shape.Valid() && Sized(st, shape.Size()) && Layers(layers, shape.Size())
    ensures IsPayload(st, cfg, shape, layers, Chunked(chunks))
  {
    hide Sized, IsChunk;
    chunks := [];
    var numChunks := (|layers| + CHUNK_SIZE - 1) / CHUNK_SIZE;
    var k := 0;
    while k < numChunks
      invariant 0 <= k <= numChunks && |chunks| == k
      invariant AreChunks(st, cfg, shape, layers, chunks)
    {
      var start := k * CHUNK_SIZE;
      var end := Least(start + CHUNK_SIZE, |layers|);
      var c := CompressRange(st, cfg, shape, layers, start, end - start);
      chunks := chunks + [c.value];
      k := k + 1;
    }
  }

  method CompressAllLayers(st: Stages, cfg: Config, shape: Shape, layers: seq<Layer>, cellBytes: nat)
    returns (p: Option<Payload>)
    requires shape.Valid() && Sized(st, shape.Size()) && Layers(layers, shape.Size())
    ensures var size := |layers| * shape.Size() * cellBytes;
      && (p.None? <==> !cfg.enabled || !cfg.HasPipeline() || size < cfg.minCompressSize || (layers == [] && !cfg.Direct()))
      && (p.Some? ==> IsPayload(st, cfg, shape, layers, p.value) && (p.value.Chunked? <==> size > CHUNK_THRESHOLD))
  {
    hide Sized, IsChunk;
    if !cfg.enabled || !cfg.HasPipeline() { return None; }
    var size := |layers| * shape.Size() * cellBytes;
    if size < cfg.minCompressSize { return None; }
    if size > CHUNK_THRESHOLD {
      assert layers != [] by { if layers == [] { NoBytes(shape.Size(), cellBytes); } }
      var chunks := CompressChunked(st, cfg, shape, layers);
      return Some(Chunked(chunks));
    }
    var c := CompressRange(st, cfg, shape, layers, 0, |layers|);
    return if c.None? then None else Some(Whole(c.value));
  }

  lemma NoBytes(n: nat, cellBytes: nat)
    ensures 0 * n * cellBytes == 0
  {
  }

  // ----- Decompression of a payload -----

  ghost function RestoredAll(st: Stages, cfg: Config, shape: Shape, chunks: seq<Chunk>): Option<seq<seq<Layer>>> {
    if chunks == [] then Some([])
    else
      var n := |chunks| - 1;
      var before, last := RestoredAll(st, cfg, shape, chunks[..n]), Restored(st, cfg, shape, chunks[n]);
      if before.None? || last.None? then None else Some(before.value + [last.value])
  }

  ghost function RestoredPayload(st: Stages, cfg: Config, shape: Shape, p: Payload): Option<seq<seq<Layer>>> {
    match p
    case Whole(c) => RestoredAll(st, cfg, shape, [c])
    case Chunked(chunks) => if chunks == [] then None else RestoredAll(st, cfg, shape, chunks)
  }

  function Flatten(parts: seq<seq<Layer>>): seq<Layer> {
    if parts == [] then [] else Flatten(parts[..|parts| - 1]) + parts[|parts| - 1]
  }

  lemma {:induction false} MeaningsAppend(st: Stages, cfg: Config, layers: seq<Layer>, a: nat, b: nat)
    requires a + b <= |layers|
    ensures Meanings(st, cfg, layers, 0, a) + Meanings(st, cfg, layers, a, b) == Meanings(st, cfg, layers, 0, a + b)
    decreases b
  {
    hide Meaning;
    if b > 0 { MeaningsAppend(st, cfg, layers, a, b - 1); }
  }

  lemma {:induction false} ChunksMeaning(st: Stages, cfg: Config, shape: Shape, layers: seq<Layer>, chunks: seq<Chunk>)
    requires Lossless(st) && Sized(st, shape.Size()) && shape.Valid() && Layers(layers, shape.Size())
    requires AreChunks(st, cfg, shape, layers, chunks)
    ensures RestoredAll(st, cfg, shape, chunks).Some?
    ensures Flatten(RestoredAll(st, cfg, shape, chunks).value) == Meanings(st, cfg, layers, 0, Least(|layers|, |chunks| * CHUNK_SIZE))
  {
    hide Lossless, Sized, IsChunk, Restored, Meanings, RestoredAll, Flatten;
    if chunks == [] {
      NoMeanings(st, cfg, layers);
      NothingRestored(st, cfg, shape);
    } else {
      var n := |chunks| - 1;
      var start := n * CHUNK_SIZE;
      var count := Least(CHUNK_SIZE, |layers| - start);
      ChunksMeaning(st, cfg, shape, layers, chunks[..n]);
      ChunkMeaning(st, cfg, shape, layers, start, count, chunks[n]);
      MeaningsAppend(st, cfg, layers, start, count);
      RestoredLast(st, cfg, shape, chunks);
    }
  }

  lemma NothingRestored(st: Stages, cfg: Config, shape: Shape)
    ensures RestoredAll(st, cfg, shape, []) == Some([]) && Flatten([]) == []
  {
  }

  lemma RestoredLast(st: Stages, cfg: Config, shape: Shape, chunks: seq<Chunk>)
    requires chunks != [] && RestoredAll(st, cfg, shape, chunks[..|chunks| - 1]).Some?
    requires Restored(st, cfg, shape, chunks[|chunks| - 1]).Some?
    ensures var n := |chunks| - 1; var r := RestoredAll(st, cfg, shape, chunks);
      && r.Some?
      && Flatten(r.value) == Flatten(RestoredAll(st, cfg, shape, chunks[..n]).value) + Restored(st, cfg, shape, chunks[n]).value
  {
    hide Restored, Flatten;
    var n := |chunks| - 1;
    FlattenLast(RestoredAll(st, cfg, shape, chunks[..n]).value, Restored(st, cfg, shape, chunks[n]).value);
  }

  lemma FlattenLast(parts: seq<seq<Layer>>, last: seq<Layer>)
    ensures Flatten(parts + [last]) == Flatten(parts) + last
  {
    assert (parts + [last])[..|parts|] == parts;
  }

  lemma NoMeanings(st: Stages, cfg: Config, layers: seq<Layer>)
    ensures Meanings(st, cfg, layers, 0, 0) == []
  {
  }

  /** Compression followed by decompression gives every layer its meaning, chunked or
      not, for every number of layers. */
  lemma PipelinePreservesMeaning(st: Stages, cfg: Config, shape: Shape, layers: seq<Layer>, p: Payload)
    requires Lossless(st) && Sized(st, shape.Size()) && shape.Valid() && Layers(layers, shape.Size())
    requires IsPayload(st, cfg, shape, layers, p) && (layers != [] || p.Whole?)
    ensures RestoredPayload(st, cfg, shape, p).Some?
    ensures Flatten(RestoredPayload(st, cfg, shape, p).value) == Meanings(st, cfg, layers, 0, |layers|)
  {
    hide Lossless, Sized, IsChunk, Restored, Meanings;
    match p
    case Whole(c) =>
      ChunkMeaning(st, cfg, shape, layers, 0, |layers|, c);
      assert [c][..0] == [];
      var r := Restored(st, cfg, shape, c).value;
      assert RestoredAll(st, cfg, shape, [c]) == Some([] + [r]);
      assert [r][..0] == [];
      assert Flatten([r]) == [] + r;
    case Chunked(chunks) =>
      assert chunks != [];
      ChunksMeaning(st, cfg, shape, layers, chunks);
  }

  lemma {:induction false} MeaningsAt(st: Stages, cfg: Config, layers: seq<Layer>, start: nat, count: nat, i: nat)
    requires i < count && start + count <= |layers|
    ensures |Meanings(st, cfg, layers, start, count)| == count
    ensures Meanings(st, cfg, layers, start, count)[i] == Meaning(st, cfg, start + i, layers[start + i])
    decreases count
  {
    hide Meaning;
    if count > 1 { MeaningsAt(st, cfg, layers, start, count - 1, if i < count - 1 then i else 0); }
  }

  /** The same in terms of the stages alone: layer i comes back quantized and dequantized
      between its transform and the inverse, each stage with the layer's own id. */
  lemma PipelineRestores(st: Stages, cfg: Config, shape: Shape, layers: seq<Layer>, p: Payload, i: nat)
    requires Lossless(st) && Sized(st, shape.Size()) && shape.Valid() && Layers(layers, shape.Size())
    requires IsPayload(st, cfg, shape, layers, p) && i < |layers|
    ensures RestoredPayload(st, cfg, shape, p).Some? && |Flatten(RestoredPayload(st, cfg, shape, p).value)| == |layers|
    ensures var x, y := layers[i], Flatten(RestoredPayload(st, cfg, shape, p).value)[i];
      && (cfg.transformer && cfg.quantizer ==>
            var q := st.quantize(i, st.transform(i, x)); y == st.inverse(i, st.dequantize(i, q.0, q.1)))
      && (!cfg.transformer && cfg.quantizer ==> var q := st.quantize(i, x); y == st.dequantize(i, q.0, q.1))
      && (cfg.transformer && !cfg.quantizer ==> y == st.inverse(i, st.transform(i, x)))
      && (!cfg.transformer && !cfg.quantizer ==> y == x)
  {
    hide Lossless, Sized, IsPayload, RestoredPayload, Meanings, Flatten;
    PipelinePreservesMeaning(st, cfg, shape, layers, p);
    MeaningsAt(st, cfg, layers, 0, |layers|, i);
  }

  /** Each stage that is switched on is undone by its inverse. */
  ghost predicate Invertible(st: Stages, cfg: Config) {
    && (cfg.transformer ==> forall id, x :: st.inverse(id, st.transform(id, x)) == x)
    && (cfg.quantizer ==> forall id, x :: st.dequantize(id, st.quantize(id, x).0, st.quantize(id, x).1) == x)
  }

  /** With invertible stages the pipeline is the identity on the layers. */
  lemma LosslessPipeline(st: Stages, cfg: Config, shape: Shape, layers: seq<Layer>, p: Payload)
    requires Lossless(st) && Sized(st, shape.Size()) && shape.Valid() && Layers(layers, shape.Size())
    requires IsPayload(st, cfg, shape, layers, p) && (layers != [] || p.Whole?) && Invertible(st, cfg)
    ensures RestoredPayload(st, cfg, shape, p).Some? && Flatten(RestoredPayload(st, cfg, shape, p).value) == layers
  {
    hide Lossless, Sized, IsPayload, RestoredPayload, Meanings, Flatten;
    PipelinePreservesMeaning(st, cfg, shape, layers, p);
    if layers == [] { NoMeanings(st, cfg, layers); } else { MeaningsAt(st, cfg, layers, 0, |layers|, 0); }
    forall i | 0 <= i < |layers| ensures Meanings(st, cfg, layers, 0, |layers|)[i] == layers[i] {
      MeaningsAt(st, cfg, layers, 0, |layers|, i);
    }
    assert Meanings(st, cfg, layers, 0, |layers|) == layers;
  }

  /** Two configurations with the same numeric stages: layout, direct path, codec,
      codec failures and chunking may differ. */
  predicate SameStages(cfg: Config, cfg': Config) {
    cfg'.transformer == cfg.transformer && cfg'.quantizer == cfg.quantizer
  }

  lemma {:induction false} SameMeanings(st: Stages, st': Stages, cfg: Config, cfg': Config, layers: seq<Layer>, start: nat, count: nat)
    requires SameStages(cfg, cfg') && st' == st.(encode := st'.encode, decode := st'.decode) && start + count <= |layers|
    ensures Meanings(st', cfg', layers, start, count) == Meanings(st, cfg, layers, start, count)
    decreases count
  {
    if count > 0 { SameMeanings(st, st', cfg, cfg', layers, start, count - 1); }
  }

  /** Any two ways to compress the same layers restore to the same layers. */
  lemma ResultIsIndependent(st: Stages, st': Stages, cfg: Config, cfg': Config, shape: Shape, layers: seq<Layer>, p: Payload, p': Payload)
    requires SameStages(cfg, cfg') && st' == st.(encode := st'.encode, decode := st'.decode)
    requires Lossless(st) && Lossless(st') && Sized(st, shape.Size()) && shape.Valid() && Layers(layers, shape.Size())
    requires layers != [] && IsPayload(st, cfg, shape, layers, p) && IsPayload(st', cfg', shape, layers, p')
    ensures RestoredPayload(st, cfg, shape, p).Some? && RestoredPayload(st', cfg', shape, p').Some?
    ensures Flatten(RestoredPayload(st, cfg, shape, p).value) == Flatten(RestoredPayload(st', cfg', shape, p').value)
  {
    assert Sized(st', shape.Size());
    hide Lossless, Sized, IsPayload, RestoredPayload, Meanings;
    PipelinePreservesMeaning(st, cfg, shape, layers, p);
    PipelinePreservesMeaning(st', cfg', shape, layers, p');
    SameMeanings(st, st', cfg, cfg', layers, 0, |layers|);
  }

  method DecompressChunk(st: Stages, cfg: Config, shape: Shape, c: Chunk) returns (r: Option<seq<Layer>>)
    requires shape.Valid()
    ensures r == Restored(st, cfg, shape, c)
  {
    hide Swap, Slabs, Undone, LayerAt;
    var n := shape.Size();
    var native := if cfg.codec && c.codecApplied then st.decode(c.start, c.body, c.size) else c.body;
    if |native| != c.count * n { return None; }
    WholeSlabs(native, shape, c.count);
    if c.permuted { native := Permute(native, shape.heads, shape.tokens); }
    var layers: seq<Layer> := [];
    var i := 0;
    while i < c.count
      invariant 0 <= i <= c.count && |native| == c.count * n
      invariant UndoneLayers(st, cfg, native, c.start, c.params, n, i) == Some(layers)
    {
      var layer := Undone(st, cfg, c.start + i, LayerAt(native, n, i), c.params, i);
      if layer.None? {
        FailedOnce(st, cfg, native, c.start, c.params, n, i, c.count);
        return None;
      }
      layers := layers + [layer.value];
      i := i + 1;
    }
    return Some(layers);
  }

  lemma {:induction false} FailedOnce(st: Stages, cfg: Config, native: Buffer, start: nat, params: seq<Params>, n: nat, i: nat, k: nat)
    requires i < k && Undone(st, cfg, start + i, LayerAt(native, n, i), params, i).None?
    ensures UndoneLayers(st, cfg, native, start, params, n, k) == None
    decreases k
  {
    hide Undone, LayerAt;
    if i < k - 1 {
      FailedOnce(st, cfg, native, start, params, n, i, k - 1);
    }
  }

  method DecompressAllLayers(st: Stages, cfg: Config, shape: Shape, p: Payload) returns (r: Option<seq<seq<Layer>>>)
    requires shape.Valid()
    ensures r == if cfg.enabled && cfg.HasPipeline() then RestoredPayload(st, cfg, shape, p) else None
  {
    hide Restored;
    if !cfg.enabled || !cfg.HasPipeline() { return None; }
    var chunks := if p.Whole? then [p.chunk] else p.chunks;
    if chunks == [] { return None; }
    var parts: seq<seq<Layer>> := [];
    var k := 0;
    while k < |chunks|
      invariant 0 <= k <= |chunks|
      invariant RestoredAll(st, cfg, shape, chunks[..k]) == Some(parts)
    {
      var layers := DecompressChunk(st, cfg, shape, chunks[k]);
      assert chunks[..k + 1][..k] == chunks[..k];
      if layers.None? {
        LostChunk(st, cfg, shape, chunks, k);
        return None;
      }
      parts := parts + [layers.value];
      k := k + 1;
    }
    assert chunks[..k] == chunks;
    return Some(parts);
  }

  lemma {:induction false} LostChunk(st: Stages, cfg: Config, shape: Shape, chunks: seq<Chunk>, k: nat)
    requires k < |chunks| && Restored(st, cfg, shape, chunks[k]).None?
    ensures RestoredAll(st, cfg, shape, chunks) == None
  {
    hide Restored;
    if k < |chunks| - 1 { LostChunk(st, cfg, shape, chunks[..|chunks| - 1], k); }
  }
}
