/** The data plane of the NCCL transport (kvserve_v1/transport/nccl_transport.py):
    which tensors the sender submits, which buffers the receiver posts for the
    announced specs, and what they hold once the i-th receive has met the i-th send. */
module NcclTensors {
  import opened Numbers

  /** A contiguous tensor; dtypes are numbered. */
  datatype Tensor = Tensor(shape: seq<nat>, dtype: nat, data: seq<int>)
  {
    predicate Valid() { |data| == Numel(shape) }
  }

  datatype Spec = Spec(shape: seq<nat>, dtype: nat)

  datatype Payload = Raw(tensor: Tensor) | Bundle(body: seq<Tensor>, aux: seq<Tensor>)
  {
    ghost predicate Valid() {
      if Raw? then tensor.Valid() else AllValid(body) && AllValid(aux)
    }
  }

  /** The control message of a PUT or PUT_BUNDLE. */
  datatype Message = Put(spec: Spec) | PutBundle(bodySpecs: seq<Spec>, auxSpecs: seq<Spec>)

  /** One `ncclSend`. */
  datatype Transfer = Transfer(dtype: nat, elements: seq<int>)

  /** One `ncclRecv`. */
  datatype Post = Post(dtype: nat, count: nat)

  ghost predicate AllValid(ts: seq<Tensor>) {
    forall i :: 0 <= i < |ts| ==> ts[i].Valid()
  }

  function SpecOf(t: Tensor): Spec { Spec(t.shape, t.dtype) }

  function SpecsOf(ts: seq<Tensor>): seq<Spec> { seq(|ts|, i requires 0 <= i < |ts| => SpecOf(ts[i])) }

  function Announce(p: Payload): Message {
    match p
    case Raw(t) => Put(SpecOf(t))
    case Bundle(body, aux) => PutBundle(SpecsOf(body), SpecsOf(aux))
  }

  // ----- What each side hands to NCCL -----

  /** `_nccl_send_tensor` over a list: empty tensors are skipped. */
  function SendsOf(ts: seq<Tensor>): seq<Transfer> {
    if ts == [] then []
    else (if |ts[0].data| == 0 then [] else [Transfer(ts[0].dtype, ts[0].data)]) + SendsOf(ts[1..])
  }

  /** A raw tensor is sent even when it is empty. */
  function Sends(p: Payload): seq<Transfer> {
    match p
    case Raw(t) => [Transfer(t.dtype, t.data)]
    case Bundle(body, aux) => SendsOf(body + aux)
  }

  function PostsOf(specs: seq<Spec>): seq<Post> {
    if specs == [] then []
    else (if Numel(specs[0].shape) == 0 then [] else [Post(specs[0].dtype, Numel(specs[0].shape))]) + PostsOf(specs[1..])
  }

  function Posts(m: Message): seq<Post> {
    match m
    case Put(spec) => [Post(spec.dtype, Numel(spec.shape))]
    case PutBundle(bodySpecs, auxSpecs) => PostsOf(bodySpecs + auxSpecs)
  }

  ghost predicate Matched(sends: seq<Transfer>, posts: seq<Post>) {
    && |sends| == |posts|
    && forall i :: 0 <= i < |sends| ==> sends[i].dtype == posts[i].dtype && |sends[i].elements| == posts[i].count
  }

  // ----- What the buffers hold afterwards -----

  /** Buffers allocated from the specs, each non-empty one filled from the next transfer. */
  function FillAll(specs: seq<Spec>, stream: seq<Transfer>): seq<Tensor>
    requires |PostsOf(specs)| <= |stream|
  {
    if specs == [] then []
    else if Numel(specs[0].shape) == 0 then [Tensor(specs[0].shape, specs[0].dtype, [])] + FillAll(specs[1..], stream)
    else [Tensor(specs[0].shape, specs[0].dtype, stream[0].elements)] + FillAll(specs[1..], stream[1..])
  }

  function Fill(m: Message, stream: seq<Transfer>): Payload
    requires |Posts(m)| <= |stream|
  {
    match m
    case Put(spec) => Raw(Tensor(spec.shape, spec.dtype, stream[0].elements))
    case PutBundle(bodySpecs, auxSpecs) =>
      var all := FillAll(bodySpecs + auxSpecs, stream);
      FillLength(bodySpecs + auxSpecs, stream);
      Bundle(all[..|bodySpecs|], all[|bodySpecs|..])
  }

  lemma {:induction false} FillLength(specs: seq<Spec>, stream: seq<Transfer>)
    requires |PostsOf(specs)| <= |stream|
    ensures |FillAll(specs, stream)| == |specs|
  {
    if specs != [] {
      FillLength(specs[1..], if Numel(specs[0].shape) == 0 then stream else stream[1..]);
    }
  }

  lemma SpecsHead(ts: seq<Tensor>)
    requires ts != []
    ensures SpecsOf(ts) != [] && SpecsOf(ts)[0] == SpecOf(ts[0]) && SpecsOf(ts)[1..] == SpecsOf(ts[1..])
  {
  }

  lemma {:induction false} ListMatched(ts: seq<Tensor>)
    requires AllValid(ts)
    ensures Matched(SendsOf(ts), PostsOf(SpecsOf(ts)))
  {
    if ts != [] {
      SpecsHead(ts);
      ListMatched(ts[1..]);
    }
  }

  lemma {:induction false} ListFilled(ts: seq<Tensor>, rest: seq<Transfer>)
    requires AllValid(ts)
    ensures Matched(SendsOf(ts), PostsOf(SpecsOf(ts)))
    ensures FillAll(SpecsOf(ts), SendsOf(ts) + rest) == ts
  {
    ListMatched(ts);
    if ts != [] {
      SpecsHead(ts);
      ListFilled(ts[1..], rest);
      assert ts == [ts[0]] + ts[1..];
      if |ts[0].data| > 0 {
        assert (SendsOf(ts) + rest)[1..] == SendsOf(ts[1..]) + rest;
      } else {
        assert SendsOf(ts) == SendsOf(ts[1..]);
      }
    }
  }

  lemma SpecsAppend(a: seq<Tensor>, b: seq<Tensor>)
    ensures SpecsOf(a) + SpecsOf(b) == SpecsOf(a + b)
  {
  }

  /** The sender's submissions match the receiver's posts one for one in dtype and
      size, and the posted buffers then hold the payload, leaving later sends alone. */
  lemma PayloadDelivered(p: Payload, rest: seq<Transfer>)
    requires p.Valid()
    ensures Matched(Sends(p), Posts(Announce(p)))
    ensures Fill(Announce(p), Sends(p) + rest) == p
  {
    if p.Bundle? {
      SpecsAppend(p.body, p.aux);
      ListFilled(p.body + p.aux, rest);
    }
  }

  function Stream(ps: seq<Payload>): seq<Transfer> {
    if ps == [] then [] else Sends(ps[0]) + Stream(ps[1..])
  }

  function Messages(ps: seq<Payload>): seq<Message> {
    if ps == [] then [] else [Announce(ps[0])] + Messages(ps[1..])
  }

  /** The receives of all accepted messages, in order, over one NCCL stream. */
  function Receive(ms: seq<Message>, stream: seq<Transfer>): seq<Payload> {
    if ms == [] || |Posts(ms[0])| > |stream| then []
    else [Fill(ms[0], stream)] + Receive(ms[1..], stream[|Posts(ms[0])|..])
  }

  /** Over one stream every accepted payload arrives whole, in order, in its own buffers. */
  lemma {:induction false} StreamDelivered(ps: seq<Payload>, rest: seq<Transfer>)
    requires forall i :: 0 <= i < |ps| ==> ps[i].Valid()
    ensures Receive(Messages(ps), Stream(ps) + rest) == ps
  {
    if ps != [] {
      hide Sends, Posts, Fill, Announce;
      var p, tail := ps[0], Stream(ps[1..]) + rest;
      PayloadDelivered(p, tail);
      assert Stream(ps) + rest == Sends(p) + tail;
      assert (Sends(p) + tail)[|Sends(p)|..] == tail;
      StreamDelivered(ps[1..], rest);
      assert ps == [p] + ps[1..];
    }
  }

  // ----- Byte counts -----

  /** The bytes of this many elements of one size. */
  function ByteCount(elements: nat, size: nat): nat { elements * size }

  function TensorsBytes(ts: seq<Tensor>, size: nat -> nat): nat {
    if ts == [] then 0 else ByteCount(|ts[0].data|, size(ts[0].dtype)) + TensorsBytes(ts[1..], size)
  }

  function SpecsBytes(specs: seq<Spec>, size: nat -> nat): nat {
    if specs == [] then 0 else ByteCount(Numel(specs[0].shape), size(specs[0].dtype)) + SpecsBytes(specs[1..], size)
  }

  /** `_payload_nbytes`, also what the sender counts when it enqueues. */
  function PayloadBytes(p: Payload, size: nat -> nat): nat {
    match p
    case Raw(t) => TensorsBytes([t], size)
    case Bundle(body, aux) => TensorsBytes(body + aux, size)
  }

  /** What the listener reserves. */
  function MessageBytes(m: Message, size: nat -> nat): nat {
    match m
    case Put(spec) => SpecsBytes([spec], size)
    case PutBundle(bodySpecs, auxSpecs) => SpecsBytes(bodySpecs + auxSpecs, size)
  }

  lemma {:induction false} ListBytes(ts: seq<Tensor>, size: nat -> nat)
    requires AllValid(ts)
    ensures TensorsBytes(ts, size) == SpecsBytes(SpecsOf(ts), size)
  {
    if ts != [] {
      SpecsHead(ts);
      ListBytes(ts[1..], size);
    }
  }

  /** The bytes enqueued, reserved and released for one payload are the same number. */
  lemma CreditsAgree(p: Payload, size: nat -> nat)
    requires p.Valid()
    ensures PayloadBytes(p, size) == MessageBytes(Announce(p), size)
    ensures |Posts(Announce(p))| <= |Sends(p)|
    ensures PayloadBytes(Fill(Announce(p), Sends(p)), size) == PayloadBytes(p, size)
  {
    PayloadDelivered(p, []);
    assert Sends(p) + [] == Sends(p);
    match p
    case Raw(t) =>
      ListBytes([t], size);
      assert SpecsOf([t]) == [SpecOf(t)];
    case Bundle(body, aux) =>
      SpecsAppend(body, aux);
      ListBytes(body + aux, size);
  }

  /** Bytes that NCCL moves. */
  function TransferBytes(sends: seq<Transfer>, size: nat -> nat): nat {
    if sends == [] then 0 else ByteCount(|sends[0].elements|, size(sends[0].dtype)) + TransferBytes(sends[1..], size)
  }

  lemma MovedFirst(x: Transfer, rest: seq<Transfer>, size: nat -> nat)
    ensures TransferBytes([x] + rest, size) == ByteCount(|x.elements|, size(x.dtype)) + TransferBytes(rest, size)
  {
    hide ByteCount;
    assert ([x] + rest)[0] == x && ([x] + rest)[1..] == rest;
  }

  lemma SendsFirst(ts: seq<Tensor>)
    requires ts != []
    ensures SendsOf(ts) == if |ts[0].data| == 0 then SendsOf(ts[1..]) else [Transfer(ts[0].dtype, ts[0].data)] + SendsOf(ts[1..])
  {
  }

  lemma TensorsFirst(ts: seq<Tensor>, size: nat -> nat)
    requires ts != []
    ensures TensorsBytes(ts, size) == ByteCount(|ts[0].data|, size(ts[0].dtype)) + TensorsBytes(ts[1..], size)
  {
  }

  lemma NothingMoved(ts: seq<Tensor>, size: nat -> nat)
    requires ts == []
    ensures TransferBytes(SendsOf(ts), size) == TensorsBytes(ts, size)
  {
  }

  lemma {:induction false} SentBytes(ts: seq<Tensor>, size: nat -> nat)
    ensures TransferBytes(SendsOf(ts), size) == TensorsBytes(ts, size)
  {
    hide ByteCount, TransferBytes, TensorsBytes, SendsOf;
    if ts == [] {
      NothingMoved(ts, size);
    } else {
      SentBytes(ts[1..], size);
      SendsFirst(ts);
      TensorsFirst(ts, size);
      MovedFirst(Transfer(ts[0].dtype, ts[0].data), SendsOf(ts[1..]), size);
      NoElements(size(ts[0].dtype));
    }
  }

  lemma NoElements(size: nat)
    ensures ByteCount(0, size) == 0
  {
  }

  lemma OneMoved(x: Transfer, size: nat -> nat)
    ensures TransferBytes([x], size) == |x.elements| * size(x.dtype)
  {
    assert [x][1..] == [];
    assert TransferBytes([], size) == 0;
  }

  lemma OneTensor(t: Tensor, size: nat -> nat)
    ensures TensorsBytes([t], size) == |t.data| * size(t.dtype)
  {
    assert [t][1..] == [];
    assert TensorsBytes([], size) == 0;
  }

  /** The credit of a payload is the bytes that are moved for it. */
  lemma CreditsAreBytesMoved(p: Payload, size: nat -> nat)
    ensures PayloadBytes(p, size) == TransferBytes(Sends(p), size)
  {
    match p
    case Raw(t) =>
      OneTensor(t, size);
      OneMoved(Transfer(t.dtype, t.data), size);
    case Bundle(body, aux) => SentBytes(body + aux, size);
  }

  // ----- The submission loops -----

  method SubmitBundle(body: seq<Tensor>, aux: seq<Tensor>) returns (sent: seq<Transfer>)
    ensures sent == Sends(Bundle(body, aux))
  {
    var ts := body + aux;
    sent := [];
    var i := 0;
    while i < |ts|
      invariant 0 <= i <= |ts|
      invariant sent + SendsOf(ts[i..]) == SendsOf(ts)
    {
      assert ts[i..][1..] == ts[i + 1..];
      if |ts[i].data| != 0 {
        sent := sent + [Transfer(ts[i].dtype, ts[i].data)];
      }
      i := i + 1;
    }
  }

  method PostBundle(bodySpecs: seq<Spec>, auxSpecs: seq<Spec>) returns (posted: seq<Post>)
    ensures posted == Posts(PutBundle(bodySpecs, auxSpecs))
  {
    hide Numel, PostsOf;
    var specs := bodySpecs + auxSpecs;
    posted := [];
    var i := 0;
    assert specs[0..] == specs;
    while i < |specs|
      invariant 0 <= i <= |specs|
      invariant posted + PostsOf(specs[i..]) == PostsOf(specs)
    {
      PostsFirst(specs[i..]);
      assert specs[i..][1..] == specs[i + 1..] && specs[i..][0] == specs[i];
      if Numel(specs[i].shape) != 0 {
        posted := posted + [Post(specs[i].dtype, Numel(specs[i].shape))];
      }
      i := i + 1;
    }
    NothingPosted(specs[i..]);
  }

  lemma PostsFirst(specs: seq<Spec>)
    requires specs != []
    ensures PostsOf(specs)
         == (if Numel(specs[0].shape) == 0 then [] else [Post(specs[0].dtype, Numel(specs[0].shape))]) + PostsOf(specs[1..])
  {
    hide Numel;
  }

  lemma NothingPosted(specs: seq<Spec>)
    requires specs == []
    ensures PostsOf(specs) == []
  {
  }
}
