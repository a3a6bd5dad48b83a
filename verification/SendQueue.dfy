/** The producer half of the NCCL transport (kvserve_v1/transport/nccl_transport.py):
    a FIFO that reinserts a refused item in front of the first queued item with
    the same transfer id, or at the end. */
module SendQueue {
  import opened Payloads

  /** Where the send thread is with the item it has popped. */
  datatype Thread = Idle | Offering(item: Item) | Refused(item: Item)
  {
    function Items(): seq<Item> { if Idle? then [] else [item] }
  }

  /** `enqueued`, `handled`, `oks` and `accepted` are history: every item sent, every
      item the receiver has answered for good, whether with OK, and those that were. */
  datatype Sender = Sender(
    queue: seq<Item>, thread: Thread, completions: seq<Item>, inflight: int, pendingBytes: int,
    enqueued: seq<Item>, handled: seq<Item>, oks: seq<bool>, accepted: seq<Item>)

  datatype Action = Enqueue(item: Item) | Pop | Answer(ack: Ack) | Requeue | Retire

  function Reinsert(queue: seq<Item>, item: Item): seq<Item> {
    var k := RetryIndex(queue, item.id);
    queue[..k] + ([item] + queue[k..])
  }

  /** A refused item returns ahead of every queued item of its id and disturbs no other id. */
  lemma ReinsertKeepsOrder(queue: seq<Item>, item: Item, id: nat)
    ensures Of(Reinsert(queue, item), id) == Of([item], id) + Of(queue, id)
    ensures Total(Reinsert(queue, item)) == item.bytes + Total(queue)
  {
    hide Of, Total;
    var k := RetryIndex(queue, item.id);
    var a, b := queue[..k], queue[k..];
    assert queue == a + b;
    InsertedTotal(a, item, b);
    InsertedOf(a, item, b, id);
  }

  lemma InsertedTotal(a: seq<Item>, item: Item, b: seq<Item>)
    ensures Total(a + ([item] + b)) == item.bytes + Total(a + b)
  {
    hide Total;
    TotalAppend(a, [item] + b);
    TotalAppend([item], b);
    TotalAppend(a, b);
    TotalOne(item);
  }

  lemma InsertedOf(a: seq<Item>, item: Item, b: seq<Item>, id: nat)
    requires forall i :: 0 <= i < |a| ==> a[i].id != item.id
    ensures Of(a + ([item] + b), id) == Of([item], id) + Of(a + b, id)
  {
    hide Of;
    OfAppend(a, [item] + b, id);
    OfAppend([item], b, id);
    OfAppend(a, b, id);
    if id == item.id { OfNone(a, id); } else { OfOther(item, id); }
    EmptyPasses(Of(a, id), Of([item], id), Of(b, id));
  }

  lemma EmptyPasses(x: seq<Item>, y: seq<Item>, z: seq<Item>)
    requires x == [] || y == []
    ensures x + (y + z) == y + (x + z)
  {
    if x == [] { assert x + (y + z) == y + z && x + z == z; } else { assert y + z == z && y + (x + z) == x + z; }
  }

  // ----- Transitions -----

  predicate Enabled(s: Sender, a: Action) {
    match a
    case Enqueue(_) => true
    case Pop => s.thread.Idle? && s.queue != []
    case Answer(_) => s.thread.Offering?
    case Requeue => s.thread.Refused?
    case Retire => s.completions != []
  }

  /** `_finish_send_item` */
  function Finish(s: Sender, bytes: nat): Sender {
    s.(pendingBytes := s.pendingBytes - bytes, inflight := s.inflight - 1)
  }

  function Apply(s: Sender, a: Action): Sender
    requires Enabled(s, a)
  {
    match a
    case Enqueue(item) =>
      s.(queue := s.queue + [item], pendingBytes := s.pendingBytes + item.bytes, enqueued := s.enqueued + [item])
    case Pop => s.(queue := s.queue[1..], thread := Offering(s.queue[0]), inflight := s.inflight + 1)
    case Answer(AckRetry) => s.(thread := Refused(s.thread.item))
    case Answer(AckOom) =>
      Finish(s.(thread := Idle, handled := s.handled + [s.thread.item], oks := s.oks + [false]), s.thread.item.bytes)
    case Answer(AckOk) =>
      var x := s.thread.item;
      s.(thread := Idle, completions := s.completions + [x], handled := s.handled + [x], oks := s.oks + [true],
         accepted := s.accepted + [x])
    case Requeue =>
      s.(thread := Idle, queue := Reinsert(s.queue, s.thread.item), inflight := s.inflight - 1)
    case Retire => Finish(s.(completions := s.completions[1..]), s.completions[0].bytes)
  }

  const Fresh := Sender([], Idle, [], 0, 0, [], [], [], [])

  // ----- Accounting and order -----

  /** Handled, held and queued items of an id are its sends, in order. */
  ghost predicate InOrder(s: Sender) {
    && |s.oks| == |s.handled| && s.accepted == Select(s.handled, s.oks)
    && forall id :: Of(s.handled, id) + Of(s.thread.Items(), id) + Of(s.queue, id) == Of(s.enqueued, id)
  }

  ghost predicate Accounted(s: Sender) {
    && s.pendingBytes == Total(s.queue) + Total(s.thread.Items()) + Total(s.completions)
    && s.inflight == |s.thread.Items()| + |s.completions|
  }

  lemma AccountedStep(s: Sender, a: Action)
    requires Accounted(s) && Enabled(s, a)
    ensures Accounted(Apply(s, a))
  {
    hide Total, Reinsert;
    EmptyTotal();
    match a
    case Enqueue(item) => TotalAppend(s.queue, [item]); TotalOne(item);
    case Pop => TotalFirst(s.queue); TotalOne(s.queue[0]);
    case Answer(_) => TotalAppend(s.completions, [s.thread.item]); TotalOne(s.thread.item);
    case Requeue => ReinsertKeepsOrder(s.queue, s.thread.item, 0); TotalOne(s.thread.item);
    case Retire => TotalFirst(s.completions);
  }

  lemma OrderOf(s: Sender, a: Action, id: nat)
    requires Enabled(s, a)
    requires Of(s.handled, id) + Of(s.thread.Items(), id) + Of(s.queue, id) == Of(s.enqueued, id)
    ensures var s' := Apply(s, a);
      Of(s'.handled, id) + Of(s'.thread.Items(), id) + Of(s'.queue, id) == Of(s'.enqueued, id)
  {
    hide Of, Reinsert;
    OfEmpty(id);
    match a
    case Enqueue(item) => OfAppend(s.queue, [item], id); OfAppend(s.enqueued, [item], id);
    case Pop => assert s.queue == [s.queue[0]] + s.queue[1..]; OfAppend([s.queue[0]], s.queue[1..], id);
    case Answer(ack) => OfAppend(s.handled, [s.thread.item], id);
    case Requeue => ReinsertKeepsOrder(s.queue, s.thread.item, id);
    case Retire =>
  }

  lemma OrderStep(s: Sender, a: Action)
    requires InOrder(s) && Enabled(s, a)
    ensures InOrder(Apply(s, a))
  {
    hide Of, Select;
    forall id ensures var s' := Apply(s, a);
      Of(s'.handled, id) + Of(s'.thread.Items(), id) + Of(s'.queue, id) == Of(s'.enqueued, id)
    {
      assert Of(s.handled, id) + Of(s.thread.Items(), id) + Of(s.queue, id) == Of(s.enqueued, id);
      OrderOf(s, a, id);
    }
    if a.Answer? { SelectAppend(s.handled, s.oks, s.thread.item, a.ack == AckOk); }
  }

  ghost predicate IsRun(states: seq<Sender>, acts: seq<Action>) {
    && |states| == |acts| + 1
    && forall i :: 0 <= i < |acts| ==> Enabled(states[i], acts[i]) && states[i + 1] == Apply(states[i], acts[i])
  }

  /** In every state of every run `_send_pending_bytes` is the bytes queued plus in
      flight, and per transfer id the items answered so far, then the held one, then
      the queued ones are the sends in enqueue order, whatever was refused. */
  lemma {:induction false} SenderInvariant(states: seq<Sender>, acts: seq<Action>, i: nat)
    requires IsRun(states, acts) && i < |states| && states[0] == Fresh
    ensures Accounted(states[i]) && InOrder(states[i])
  {
    if i > 0 {
      SenderInvariant(states, acts, i - 1);
      AccountedStep(states[i - 1], acts[i - 1]);
      OrderStep(states[i - 1], acts[i - 1]);
    }
  }

  /** `wait_for_sent` returns only when every send has been answered and no byte is pending. */
  lemma WaitForSentDrains(s: Sender, id: nat)
    requires Accounted(s) && InOrder(s) && s.queue == [] && s.inflight == 0
    ensures s.pendingBytes == 0 && Of(s.handled, id) == Of(s.enqueued, id)
  {
    assert s.thread.Items() == [] && s.completions == [];
  }

  // ----- Rotation -----

  ghost predicate DistinctIds(s: Sender) {
    && (forall i, j :: 0 <= i < j < |s.queue| ==> s.queue[i].id != s.queue[j].id)
    && (!s.thread.Idle? ==> forall i :: 0 <= i < |s.queue| ==> s.queue[i].id != s.thread.item.id)
  }

  function Pops(acts: seq<Action>): nat {
    if acts == [] then 0 else Pops(acts[..|acts| - 1]) + (if acts[|acts| - 1].Pop? then 1 else 0)
  }

  /** With distinct ids a pop moves every item one place forward, and no refusal or
      append moves any. */
  lemma RotationStep(s: Sender, a: Action, k: nat)
    requires DistinctIds(s) && Enabled(s, a) && k < |s.queue| && (a.Pop? ==> k > 0)
    ensures var s', k' := Apply(s, a), if a.Pop? then k - 1 else k; k' < |s'.queue| && s'.queue[k'] == s.queue[k]
  {
    if a.Requeue? {
      assert RetryIndex(s.queue, s.thread.item.id) == |s.queue|;
    }
  }

  /** The item at position k is popped as the (k + 1)-st item, whatever is refused or appended. */
  lemma {:induction false} RotationIsFair(states: seq<Sender>, acts: seq<Action>, k: nat, i: nat)
    requires IsRun(states, acts) && i < |states| && k < |states[0].queue|
    requires forall j :: 0 <= j <= i ==> DistinctIds(states[j])
    requires Pops(acts[..i]) <= k
    ensures k - Pops(acts[..i]) < |states[i].queue| && states[i].queue[k - Pops(acts[..i])] == states[0].queue[k]
    decreases i
  {
    if i > 0 {
      assert acts[..i][..i - 1] == acts[..i - 1];
      RotationIsFair(states, acts, k, i - 1);
      RotationStep(states[i - 1], acts[i - 1], k - Pops(acts[..i - 1]));
    }
  }

  /** Whether an item behind a refused head gets closer: exactly when no item up to
      and including it shares the head's id. */
  lemma RefusalAdvances(queue: seq<Item>, k: nat)
    requires 0 < k < |queue|
    ensures var queue' := Reinsert(queue[1..], queue[0]);
      if forall i :: 1 <= i <= k ==> queue[i].id != queue[0].id
      then queue'[k - 1] == queue[k]
      else queue'[k] == queue[k]
  {
    var rest := queue[1..];
    var r := RetryIndex(rest, queue[0].id);
    assert forall i :: 0 <= i < |rest| ==> rest[i] == queue[i + 1];
    if forall i :: 1 <= i <= k ==> queue[i].id != queue[0].id {
      assert r < |rest| ==> queue[r + 1].id == queue[0].id;
    } else {
      var i :| 1 <= i <= k && queue[i].id == queue[0].id;
      assert rest[i - 1].id == queue[0].id;
    }
  }

  /** Two adjacent sends of one id block the queue: the refused head returns in front. */
  lemma RepeatedIdBlocks(a1: Item, a2: Item, rest: seq<Item>)
    requires a1.id == a2.id
    ensures Reinsert(([a1, a2] + rest)[1..], a1) == [a1, a2] + rest
  {
    assert ([a1, a2] + rest)[1..] == [a2] + rest;
  }

  // ----- The transport's own fields -----

  class NcclSender {
    var sendQueue: seq<Item>
    var sendInflight: int
    var sendPendingBytes: int
    var sendCompletions: seq<Item>
    var thread: Thread
    ghost var enqueued: seq<Item>
    ghost var handled: seq<Item>
    ghost var oks: seq<bool>
    ghost var accepted: seq<Item>

    ghost function View(): Sender
      reads this
    {
      Sender(sendQueue, thread, sendCompletions, sendInflight, sendPendingBytes, enqueued, handled, oks, accepted)
    }

    constructor ()
      ensures View() == Fresh
    {
      sendQueue, sendInflight, sendPendingBytes, sendCompletions, thread := [], 0, 0, [], Idle;
      enqueued, handled, oks, accepted := [], [], [], [];
    }

    /** `send` and `send_bundle` */
    method Send(item: Item)
      modifies this
      ensures View() == Apply(old(View()), Enqueue(item))
    {
      sendPendingBytes := sendPendingBytes + item.bytes;
      sendQueue := sendQueue + [item];
      enqueued := enqueued + [item];
    }

    method TakeNext()
      requires thread.Idle? && sendQueue != []
      modifies this
      ensures View() == Apply(old(View()), Pop)
    {
      thread := Offering(sendQueue[0]);
      sendQueue := sendQueue[1..];
      sendInflight := sendInflight + 1;
    }

    method FinishSendItem(bytes: nat)
      modifies this`sendPendingBytes, this`sendInflight
      ensures View() == Finish(old(View()), bytes)
    {
      sendPendingBytes := sendPendingBytes - bytes;
      sendInflight := sendInflight - 1;
    }

    /** The receiver's control response arrives. */
    method Answered(ack: Ack)
      requires thread.Offering?
      modifies this
      ensures View() == Apply(old(View()), Answer(ack))
    {
      var item := thread.item;
      if ack == AckRetry {
        thread := Refused(item);
      } else {
        thread := Idle;
        handled, oks := handled + [item], oks + [ack == AckOk];
        if ack == AckOk {
          sendCompletions := sendCompletions + [item];
          accepted := accepted + [item];
        } else {
          FinishSendItem(item.bytes);
        }
      }
    }

    /** The retry branch of `_send_loop`: a linear search for the same transfer id. */
    method RotateRefused()
      requires thread.Refused?
      modifies this
      ensures View() == Apply(old(View()), Requeue)
    {
      var item := thread.item;
      sendInflight := sendInflight - 1;
      var index := 0;
      while index < |sendQueue| && sendQueue[index].id != item.id
        invariant 0 <= index <= |sendQueue|
        invariant forall i :: 0 <= i < index ==> sendQueue[i].id != item.id
      {
        index := index + 1;
      }
      assert index == RetryIndex(sendQueue, item.id);
      sendQueue := sendQueue[..index] + ([item] + sendQueue[index..]);
      thread := Idle;
    }

    /** One turn of `_send_completion_loop`. */
    method RetireNext()
      requires sendCompletions != []
      modifies this
      ensures View() == Apply(old(View()), Retire)
    {
      var bytes := sendCompletions[0].bytes;
      sendCompletions := sendCompletions[1..];
      FinishSendItem(bytes);
    }
  }
}
