/** Metadata trees of the wire format (kvserve_v1/compression/wire.py): tensors inside
    quantization parameters are moved to a side list and replaced by placeholders. */
module WireMetadata {
  import opened Numbers
  import opened Wrappers

  /** A dtype by number, with its element size in bytes. */
  datatype Dtype = Dtype(code: nat, itemsize: nat)

  /** A contiguous tensor by its bytes. */
  datatype Tensor = Tensor(shape: seq<nat>, dtype: Dtype, bytes: seq<nat>)
  {
    predicate Valid() { dtype.itemsize > 0 && |bytes| == Numel(shape) * dtype.itemsize }
  }

  datatype Val =
    | Atom(code: nat)
    | Int(i: int)
    | Str(s: string)
    | Tens(t: Tensor)
    | List(items: Vals)
    | Tuple(items: Vals)
    | Dict(entries: Entries)

  datatype Vals = Nil | Cons(head: Val, tail: Vals)

  datatype Entries = End | Entry(key: string, value: Val, rest: Entries)

  const PLACEHOLDER := "__kvserve_aux_tensor__"
  const QPARAMS := "quantization_params"

  // ----- The tensors of a tree, in the order they are packed -----

  function Tensors(v: Val): seq<Tensor> {
    match v
    case Tens(t) => [t]
    case Dict(entries) => EntryTensors(entries)
    case List(items) => ItemTensors(items)
    case Tuple(items) => ItemTensors(items)
    case _ => []
  }

  function ItemTensors(vs: Vals): seq<Tensor> {
    match vs
    case Nil => []
    case Cons(v, rest) => Tensors(v) + ItemTensors(rest)
  }

  function EntryTensors(es: Entries): seq<Tensor> {
    match es
    case End => []
    case Entry(_, v, rest) => Tensors(v) + EntryTensors(rest)
  }

  // ----- Packing -----

  function Placeholder(n: nat): Val { List(Cons(Str(PLACEHOLDER), Cons(Int(n), Nil))) }

  /** `_pack_qparams` when n tensors have been collected before. */
  function Pack(v: Val, n: nat): Val {
    match v
    case Tens(_) => Placeholder(n)
    case Dict(entries) => Dict(PackEntries(entries, n))
    case List(items) => List(PackItems(items, n))
    case Tuple(items) => List(PackItems(items, n))
    case _ => v
  }

  function PackItems(vs: Vals, n: nat): Vals {
    match vs
    case Nil => Nil
    case Cons(v, rest) => Cons(Pack(v, n), PackItems(rest, n + |Tensors(v)|))
  }

  function PackEntries(es: Entries, n: nat): Entries {
    match es
    case End => End
    case Entry(k, v, rest) => Entry(k, Pack(v, n), PackEntries(rest, n + |Tensors(v)|))
  }

  /** The shape that `_is_aux_placeholder` recognises. */
  predicate Shaped(items: Vals) {
    items.Cons? && items.head == Str(PLACEHOLDER) && items.tail.Cons? && items.tail.tail.Nil?
  }

  // ----- Unpacking -----

  /** Indexing a Python list, from the end for negative indexes. */
  function At(aux: seq<Tensor>, v: Val): Result<Val> {
    if !v.Int? then Failure
    else if 0 <= v.i < |aux| then Ok(Tens(aux[v.i]))
    else if -|aux| <= v.i < 0 then Ok(Tens(aux[|aux| + v.i]))
    else Failure
  }

  function Unpack(v: Val, aux: seq<Tensor>): Result<Val> {
    match v
    case List(items) =>
      if Shaped(items) then At(aux, items.tail.head)
      else (match UnpackItems(items, aux) case Ok(vs) => Ok(List(vs)) case Failure => Failure)
    case Dict(entries) => (match UnpackEntries(entries, aux) case Ok(es) => Ok(Dict(es)) case Failure => Failure)
    case _ => Ok(v)
  }

  function UnpackItems(vs: Vals, aux: seq<Tensor>): Result<Vals> {
    match vs
    case Nil => Ok(Nil)
    case Cons(v, rest) =>
      var head, tail := Unpack(v, aux), UnpackItems(rest, aux);
      if head.Ok? && tail.Ok? then Ok(Cons(head.value, tail.value)) else Failure
  }

  function UnpackEntries(es: Entries, aux: seq<Tensor>): Result<Entries> {
    match es
    case End => Ok(End)
    case Entry(k, v, rest) =>
      var head, tail := Unpack(v, aux), UnpackEntries(rest, aux);
      if head.Ok? && tail.Ok? then Ok(Entry(k, head.value, tail.value)) else Failure
  }

  // ----- What survives -----

  /** Tuples become lists. */
  function Normal(v: Val): Val {
    match v
    case Dict(entries) => Dict(NormalEntries(entries))
    case List(items) => List(NormalItems(items))
    case Tuple(items) => List(NormalItems(items))
    case _ => v
  }

  function NormalItems(vs: Vals): Vals {
    match vs
    case Nil => Nil
    case Cons(v, rest) => Cons(Normal(v), NormalItems(rest))
  }

  function NormalEntries(es: Entries): Entries {
    match es
    case End => End
    case Entry(k, v, rest) => Entry(k, Normal(v), NormalEntries(rest))
  }

  /** No list or tuple looks like a placeholder. */
  predicate Clean(v: Val) {
    match v
    case Dict(entries) => CleanEntries(entries)
    case List(items) => !Shaped(items) && CleanItems(items)
    case Tuple(items) => !Shaped(items) && CleanItems(items)
    case _ => true
  }

  predicate CleanItems(vs: Vals) {
    match vs
    case Nil => true
    case Cons(v, rest) => Clean(v) && CleanItems(rest)
  }

  predicate CleanEntries(es: Entries) {
    match es
    case End => true
    case Entry(_, v, rest) => Clean(v) && CleanEntries(rest)
  }

  /** The side list holds the tree's tensors from index n on. */
  predicate Holds(aux: seq<Tensor>, n: nat, ts: seq<Tensor>) {
    n + |ts| <= |aux| && aux[n..n + |ts|] == ts
  }

  lemma HoldsSplit(aux: seq<Tensor>, n: nat, a: seq<Tensor>, b: seq<Tensor>)
    requires Holds(aux, n, a + b)
    ensures Holds(aux, n, a) && Holds(aux, n + |a|, b)
  {
    var all := aux[n..n + |a + b|];
    assert aux[n..n + |a|] == all[..|a|] == a;
    assert aux[n + |a|..n + |a| + |b|] == all[|a|..] == b;
  }

  lemma PackShape(items: Vals, n: nat)
    ensures Shaped(PackItems(items, n)) <==> Shaped(items)
  {
    if items.Cons? {
      assert PackItems(items, n).head == Str(PLACEHOLDER) <==> items.head == Str(PLACEHOLDER);
      var k := n + |Tensors(items.head)|;
      if items.tail.Cons? {
        assert PackItems(items.tail, k).tail == PackItems(items.tail.tail, k + |Tensors(items.tail.head)|);
      }
    }
  }

  /** Unpacking undoes packing exactly when nothing in the tree looks like a placeholder. */
  lemma {:induction false} UnpackPack(v: Val, aux: seq<Tensor>, n: nat)
    requires Holds(aux, n, Tensors(v))
    ensures Unpack(Pack(v, n), aux) == Ok(Normal(v)) <==> Clean(v)
  {
    match v
    case Tens(t) => assert aux[n..n + 1][0] == aux[n];
    case Dict(entries) => UnpackPackEntries(entries, aux, n);
    case List(items) => PackShape(items, n); UnpackPackItems(items, aux, n);
    case Tuple(items) => PackShape(items, n); UnpackPackItems(items, aux, n);
    case Atom(_) =>
    case Int(_) =>
    case Str(_) =>
  }

  lemma {:induction false} UnpackPackItems(vs: Vals, aux: seq<Tensor>, n: nat)
    requires Holds(aux, n, ItemTensors(vs))
    ensures UnpackItems(PackItems(vs, n), aux) == Ok(NormalItems(vs)) <==> CleanItems(vs)
  {
    if vs.Cons? {
      hide Unpack, Pack, Normal, Clean, Holds, Tensors;
      HoldsSplit(aux, n, Tensors(vs.head), ItemTensors(vs.tail));
      UnpackPack(vs.head, aux, n);
      UnpackPackItems(vs.tail, aux, n + |Tensors(vs.head)|);
    }
  }

  lemma {:induction false} UnpackPackEntries(es: Entries, aux: seq<Tensor>, n: nat)
    requires Holds(aux, n, EntryTensors(es))
    ensures UnpackEntries(PackEntries(es, n), aux) == Ok(NormalEntries(es)) <==> CleanEntries(es)
  {
    if es.Entry? {
      hide Unpack, Pack, Normal, Clean, Holds, Tensors;
      HoldsSplit(aux, n, Tensors(es.value), EntryTensors(es.rest));
      UnpackPack(es.value, aux, n);
      UnpackPackEntries(es.rest, aux, n + |Tensors(es.value)|);
    }
  }

  // ----- No tensor is left behind -----

  /** `_assert_no_tensor` raises exactly on these. */
  predicate HasTensor(v: Val) { Tensors(v) != [] }

  lemma {:induction false} PackLeavesNoTensor(v: Val, n: nat)
    ensures !HasTensor(Pack(v, n))
  {
    match v
    case Tens(_) => PlaceholderHasNone(n);
    case Dict(entries) => PackEntriesLeaveNone(entries, n);
    case List(items) => PackItemsLeaveNone(items, n);
    case Tuple(items) => PackItemsLeaveNone(items, n);
    case Atom(_) =>
    case Int(_) =>
    case Str(_) =>
  }

  lemma PlaceholderHasNone(n: nat)
    ensures !HasTensor(Placeholder(n))
  {
    assert ItemTensors(Cons(Int(n), Nil)) == [];
    assert ItemTensors(Cons(Str(PLACEHOLDER), Cons(Int(n), Nil))) == [];
  }

  lemma {:induction false} PackItemsLeaveNone(vs: Vals, n: nat)
    ensures ItemTensors(PackItems(vs, n)) == []
  {
    if vs.Cons? {
      PackLeavesNoTensor(vs.head, n);
      PackItemsLeaveNone(vs.tail, n + |Tensors(vs.head)|);
    }
  }

  lemma {:induction false} PackEntriesLeaveNone(es: Entries, n: nat)
    ensures EntryTensors(PackEntries(es, n)) == []
  {
    if es.Entry? {
      PackLeavesNoTensor(es.value, n);
      PackEntriesLeaveNone(es.rest, n + |Tensors(es.value)|);
    }
  }

  // ----- The methods that append to the shared list -----

  method PackQparams(v: Val, aux: seq<Tensor>) returns (packed: Val, aux': seq<Tensor>)
    ensures packed == Pack(v, |aux|) && aux' == aux + Tensors(v)
    decreases v
  {
    match v
    case Tens(t) => return Placeholder(|aux|), aux + [t];
    case Dict(entries) =>
      var es, a := PackQparamsEntries(entries, aux);
      return Dict(es), a;
    case List(items) =>
      var vs, a := PackQparamsItems(items, aux);
      return List(vs), a;
    case Tuple(items) =>
      var vs, a := PackQparamsItems(items, aux);
      return List(vs), a;
    case _ => return v, aux;
  }

  method PackQparamsItems(vs: Vals, aux: seq<Tensor>) returns (packed: Vals, aux': seq<Tensor>)
    ensures packed == PackItems(vs, |aux|) && aux' == aux + ItemTensors(vs)
    decreases vs
  {
    match vs
    case Nil => return Nil, aux;
    case Cons(v, rest) =>
      var head, a := PackQparams(v, aux);
      var tail, b := PackQparamsItems(rest, a);
      return Cons(head, tail), b;
  }

  method PackQparamsEntries(es: Entries, aux: seq<Tensor>) returns (packed: Entries, aux': seq<Tensor>)
    ensures packed == PackEntries(es, |aux|) && aux' == aux + EntryTensors(es)
    decreases es
  {
    match es
    case End => return End, aux;
    case Entry(k, v, rest) =>
      var head, a := PackQparams(v, aux);
      var tail, b := PackQparamsEntries(rest, a);
      return Entry(k, head, tail), b;
  }

  // ----- Metadata dictionaries: only quantization parameters are packed -----

  function MetaTensors(m: Val): seq<Tensor> { if m.Dict? then QparamTensors(m.entries) else [] }

  function QparamTensors(es: Entries): seq<Tensor> {
    if es.End? then [] else if es.key == QPARAMS then Tensors(es.value) else QparamTensors(es.rest)
  }

  function PackMeta(m: Val, n: nat): Val { if m.Dict? then Dict(PackMetaEntries(m.entries, n)) else m }

  function PackMetaEntries(es: Entries, n: nat): Entries {
    if es.End? then End
    else if es.key == QPARAMS then Entry(es.key, Pack(es.value, n), es.rest)
    else Entry(es.key, es.value, PackMetaEntries(es.rest, n))
  }

  function UnpackMeta(m: Val, aux: seq<Tensor>): Result<Val> {
    if m.Dict? then (match UnpackMetaEntries(m.entries, aux) case Ok(es) => Ok(Dict(es)) case Failure => Failure) else Ok(m)
  }

  function UnpackMetaEntries(es: Entries, aux: seq<Tensor>): Result<Entries> {
    if es.End? then Ok(End)
    else if es.key == QPARAMS then
      (match Unpack(es.value, aux) case Ok(v) => Ok(Entry(es.key, v, es.rest)) case Failure => Failure)
    else
      match UnpackMetaEntries(es.rest, aux) case Ok(rest) => Ok(Entry(es.key, es.value, rest)) case Failure => Failure
  }

  function NormalMeta(m: Val): Val { if m.Dict? then Dict(NormalMetaEntries(m.entries)) else m }

  function NormalMetaEntries(es: Entries): Entries {
    if es.End? then End
    else if es.key == QPARAMS then Entry(es.key, Normal(es.value), es.rest)
    else Entry(es.key, es.value, NormalMetaEntries(es.rest))
  }

  predicate CleanMeta(m: Val) { m.Dict? ==> CleanMetaEntries(m.entries) }

  predicate CleanMetaEntries(es: Entries) {
    if es.End? then true else if es.key == QPARAMS then Clean(es.value) else CleanMetaEntries(es.rest)
  }

  lemma {:induction false} UnpackPackMetaEntries(es: Entries, aux: seq<Tensor>, n: nat)
    requires Holds(aux, n, QparamTensors(es))
    ensures UnpackMetaEntries(PackMetaEntries(es, n), aux) == Ok(NormalMetaEntries(es)) <==> CleanMetaEntries(es)
  {
    if es.Entry? {
      if es.key == QPARAMS { UnpackPack(es.value, aux, n); } else { UnpackPackMetaEntries(es.rest, aux, n); }
    }
  }

  lemma UnpackPackMeta(m: Val, aux: seq<Tensor>, n: nat)
    requires Holds(aux, n, MetaTensors(m))
    ensures UnpackMeta(PackMeta(m, n), aux) == Ok(NormalMeta(m)) <==> CleanMeta(m)
  {
    if m.Dict? { UnpackPackMetaEntries(m.entries, aux, n); }
  }

  function Lookup(m: Val, key: string): Result<Val> { if m.Dict? then Find(m.entries, key) else Failure }

  function Find(es: Entries, key: string): Result<Val> {
    if es.End? then Failure else if es.key == key then Ok(es.value) else Find(es.rest, key)
  }

  lemma {:induction false} FindNormal(es: Entries, key: string)
    requires key != QPARAMS
    ensures Find(NormalMetaEntries(es), key) == Find(es, key)
  {
    if es.Entry? && es.key != QPARAMS { FindNormal(es.rest, key); }
  }

  // ----- Tensors outside the quantization parameters -----

  function Outside(m: Val): seq<Tensor> { if m.Dict? then OutsideEntries(m.entries) else Tensors(m) }

  function OutsideEntries(es: Entries): seq<Tensor> {
    if es.End? then []
    else if es.key == QPARAMS then EntryTensors(es.rest)
    else Tensors(es.value) + OutsideEntries(es.rest)
  }

  lemma {:induction false} PackedEntriesKeepOutside(es: Entries, n: nat)
    ensures EntryTensors(PackMetaEntries(es, n)) == OutsideEntries(es)
  {
    if es.Entry? {
      if es.key == QPARAMS {
        PackLeavesNoTensor(es.value, n);
      } else {
        PackedEntriesKeepOutside(es.rest, n);
      }
    }
  }

  lemma PackKeepsOutside(m: Val, n: nat)
    ensures Tensors(PackMeta(m, n)) == Outside(m)
  {
    if m.Dict? { PackedEntriesKeepOutside(m.entries, n); }
  }
}
