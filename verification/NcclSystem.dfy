/** Both ends of the NCCL transport, joined by the control socket: the send thread
    offers one payload at a time and waits for the listener's reply. */
module NcclSystem {
  import opened Wrappers
  import opened Payloads
  import S = SendQueue
  import R = RecvBudget

  /** `reply` is the control response the send thread has not read yet. */
  datatype System = System(sender: S.Sender, receiver: R.Receiver, reply: Option<Ack>)

  datatype Step =
    | Send(item: Item)
    | TakeNext
    | Serve(oom: bool)
    | Hear
    | Rotate
    | RetireSend
    | Receive(event: R.Event)

  function Start(size: int): System {
    System(S.Fresh, R.Fresh(size), None)
  }

  predicate Enabled(y: System, p: Step) {
    match p
    case Send(_) => true
    case TakeNext => S.Enabled(y.sender, S.Pop)
    case Serve(_) => y.sender.thread.Offering? && y.reply.None?
    case Hear => y.sender.thread.Offering? && y.reply.Some?
    case Rotate => S.Enabled(y.sender, S.Requeue)
    case RetireSend => S.Enabled(y.sender, S.Retire)
    case Receive(e) => !e.Offer? && R.Enabled(y.receiver, e)
  }

  function Apply(y: System, p: Step): System
    requires Enabled(y, p)
  {
    match p
    case Send(item) => y.(sender := S.Apply(y.sender, S.Enqueue(item)))
    case TakeNext => y.(sender := S.Apply(y.sender, S.Pop))
    case Serve(oom) =>
      var item := y.sender.thread.item;
      y.(receiver := R.Apply(y.receiver, R.Offer(item, oom)), reply := Some(R.Reply(y.receiver, item, oom)))
    case Hear => y.(sender := S.Apply(y.sender, S.Answer(y.reply.value)), reply := None)
    case Rotate => y.(sender := S.Apply(y.sender, S.Requeue))
    case RetireSend => y.(sender := S.Apply(y.sender, S.Retire))
    case Receive(e) => y.(receiver := R.Apply(y.receiver, e))
  }

  ghost predicate IsRun(states: seq<System>, steps: seq<Step>) {
    && |states| == |steps| + 1
    && forall i :: 0 <= i < |steps| ==> Enabled(states[i], steps[i]) && states[i + 1] == Apply(states[i], steps[i])
  }

  // ----- Order from end to end -----

  /** The accepted payload whose OK is still on the socket. */
  function Unheard(y: System): seq<Item> {
    if y.reply == Some(AckOk) then y.sender.thread.Items() else []
  }

  /** Both ends agree on the accepted payloads and their order. */
  ghost predicate Agreed(y: System) {
    && (y.reply.Some? ==> y.sender.thread.Offering?)
    && y.sender.accepted + Unheard(y) == y.receiver.admitted
  }

  ghost predicate EndsInOrder(y: System) {
    && S.Accounted(y.sender) && S.InOrder(y.sender)
    && R.Accounted(y.receiver) && R.InOrder(y.receiver)
  }

  lemma AgreedStep(y: System, p: Step)
    requires Agreed(y) && Enabled(y, p)
    ensures Agreed(Apply(y, p))
  {
    match p
    case Serve(oom) =>
    case Receive(e) => AdmittedKept(y.receiver, e);
    case Send(_) =>
    case TakeNext =>
    case Hear =>
    case Rotate =>
    case RetireSend =>
  }

  lemma AdmittedKept(r: R.Receiver, e: R.Event)
    requires R.Enabled(r, e) && !e.Offer?
    ensures R.Apply(r, e).admitted == r.admitted
  {
  }

  lemma EndsStep(y: System, p: Step)
    requires EndsInOrder(y) && Enabled(y, p)
    ensures EndsInOrder(Apply(y, p))
  {
    hide S.Accounted, S.InOrder, R.Accounted, R.InOrder;
    match p
    case Send(item) => SenderStep(y.sender, S.Enqueue(item));
    case TakeNext => SenderStep(y.sender, S.Pop);
    case Serve(oom) => ReceiverStep(y.receiver, R.Offer(y.sender.thread.item, oom));
    case Hear => SenderStep(y.sender, S.Answer(y.reply.value));
    case Rotate => SenderStep(y.sender, S.Requeue);
    case RetireSend => SenderStep(y.sender, S.Retire);
    case Receive(e) => ReceiverStep(y.receiver, e);
  }

  lemma SenderStep(s: S.Sender, a: S.Action)
    requires S.Accounted(s) && S.InOrder(s) && S.Enabled(s, a)
    ensures S.Accounted(S.Apply(s, a)) && S.InOrder(S.Apply(s, a))
  {
    hide *;
    S.AccountedStep(s, a);
    S.OrderStep(s, a);
  }

  lemma ReceiverStep(r: R.Receiver, e: R.Event)
    requires R.Accounted(r) && R.InOrder(r) && R.Enabled(r, e)
    ensures R.Accounted(R.Apply(r, e)) && R.InOrder(R.Apply(r, e))
  {
    hide *;
    R.AccountedStep(r, e);
    R.OrderStep(r, e);
  }

  lemma SenderStarts()
    ensures S.Accounted(S.Fresh) && S.InOrder(S.Fresh)
  {
    assert Select([], []) == [];
  }

  lemma ReceiverStarts(size: int)
    ensures R.Accounted(R.Fresh(size)) && R.InOrder(R.Fresh(size))
  {
    assert R.Fresh(size).Held() == [];
    assert Select([], []) == [];
  }

  lemma StartsInOrder(size: int)
    ensures Agreed(Start(size)) && EndsInOrder(Start(size))
  {
    hide S.Accounted, S.InOrder, R.Accounted, R.InOrder;
    SenderStarts();
    ReceiverStarts(size);
  }

  lemma {:induction false} SystemInvariant(states: seq<System>, steps: seq<Step>, size: int, i: nat)
    requires IsRun(states, steps) && i < |states| && states[0] == Start(size)
    ensures Agreed(states[i]) && EndsInOrder(states[i])
  {
    hide Agreed, EndsInOrder, Apply, Enabled, Start;
    if i == 0 {
      StartsInOrder(size);
    } else {
      SystemInvariant(states, steps, size, i - 1);
      AgreedStep(states[i - 1], steps[i - 1]);
      EndsStep(states[i - 1], steps[i - 1]);
    }
  }

  /** In every state of every run, whatever is retried, enqueued meanwhile or fails:
      published payloads are the successful ones of a prefix of the admitted ones,
      admitted payloads are the OK-answered ones, and per transfer id the answered
      ones are a prefix of the sends and the loaded ones of the published. */
  lemma EndToEndOrder(states: seq<System>, steps: seq<Step>, size: int, i: nat, id: nat)
    requires IsRun(states, steps) && i < |states| && states[0] == Start(size)
    ensures var s, r := states[i].sender, states[i].receiver;
      && |r.goods| == |r.completed| && r.published == Select(r.completed, r.goods) && r.completed <= r.admitted
      && s.accepted <= r.admitted && |r.admitted| <= |s.accepted| + 1
      && |s.oks| == |s.handled| && s.accepted == Select(s.handled, s.oks)
      && Of(s.handled, id) <= Of(s.enqueued, id)
      && Of(r.consumed, id) <= Of(r.published, id)
  {
    hide *;
    SystemInvariant(states, steps, size, i);
    StateInOrder(states[i], id);
  }

  lemma StateInOrder(y: System, id: nat)
    requires Agreed(y) && EndsInOrder(y)
    ensures var s, r := y.sender, y.receiver;
      && |r.goods| == |r.completed| && r.published == Select(r.completed, r.goods) && r.completed <= r.admitted
      && s.accepted <= r.admitted && |r.admitted| <= |s.accepted| + 1
      && |s.oks| == |s.handled| && s.accepted == Select(s.handled, s.oks)
      && Of(s.handled, id) <= Of(s.enqueued, id)
      && Of(r.consumed, id) <= Of(r.published, id)
  {
    hide Of, Select, S.Accounted, R.Accounted;
    var s, r := y.sender, y.receiver;
    assert Of(s.handled, id) + Of(s.thread.Items(), id) + Of(s.queue, id) == Of(s.enqueued, id);
    assert Of(r.consumed, id) + Of(r.buffered, id) + Of(r.received, id) == Of(r.published, id);
  }

  /** Without failures, a transfer id's payloads are published, and loaded, in the
      order they were sent, none skipped and none repeated. */
  lemma PublishedInSendOrder(states: seq<System>, steps: seq<Step>, size: int, i: nat, id: nat)
    requires IsRun(states, steps) && i < |states| && states[0] == Start(size)
    requires forall k :: 0 <= k < |states[i].receiver.goods| ==> states[i].receiver.goods[k]
    requires forall k :: 0 <= k < |states[i].sender.oks| ==> states[i].sender.oks[k]
    ensures Of(states[i].receiver.published, id) <= Of(states[i].sender.enqueued, id)
    ensures Of(states[i].receiver.consumed, id) <= Of(states[i].sender.enqueued, id)
  {
    EndToEndOrder(states, steps, size, i, id);
    SystemInvariant(states, steps, size, i);
    var y := states[i];
    var s, r := y.sender, y.receiver;
    SelectAll(r.completed, r.goods);
    SelectAll(s.handled, s.oks);
    OfPrefix(r.completed, r.admitted, id);
    OfAppend(s.accepted, Unheard(y), id);
    hide Of, Select, R.InOrder, S.Accounted, R.Accounted;
    assert Of(s.enqueued, id) == Of(s.handled, id) + Of(s.thread.Items(), id) + Of(s.queue, id);
    UnheardPrefix(y, id);
  }

  lemma UnheardPrefix(y: System, id: nat)
    requires Agreed(y) && S.InOrder(y.sender) && y.sender.accepted == y.sender.handled
    ensures Of(y.receiver.admitted, id) <= Of(y.sender.enqueued, id)
  {
    hide Of, Select;
    var s := y.sender;
    OfAppend(s.accepted, Unheard(y), id);
    OfEmpty(id);
    assert Of(s.enqueued, id) == Of(s.handled, id) + Of(s.thread.Items(), id) + Of(s.queue, id);
    assert Of(Unheard(y), id) <= Of(s.thread.Items(), id);
  }

  // ----- A decode step is served -----

  /** Every transfer id is sent once, with a positive size, and scheduled once; nothing fails. */
  ghost predicate OrderlyStep(y: System, p: Step) {
    match p
    case Send(item) => item.bytes > 0 && Of(y.sender.enqueued, item.id) == []
    case Serve(oom) => !oom
    case Receive(e) => !e.Offer? && R.OrderlyEvent(y.receiver, e)
    case TakeNext => true
    case Hear => true
    case Rotate => true
    case RetireSend => true
  }

  ghost predicate OrderlyRun(states: seq<System>, steps: seq<Step>) {
    IsRun(states, steps) && forall i :: 0 <= i < |steps| ==> OrderlyStep(states[i], steps[i])
  }

  ghost predicate SentOnce(s: S.Sender) {
    && (forall id :: |Of(s.enqueued, id)| <= 1)
    && (forall x :: x in s.queue || x in s.thread.Items() ==> x.bytes > 0)
  }

  lemma {:induction false} OfCount(s: seq<Item>, i: nat, j: nat)
    requires i < j < |s| && s[i].id == s[j].id
    ensures |Of(s, s[i].id)| >= 2
  {
    if i == 0 { OfHas(s[1..], j - 1); } else { OfCount(s[1..], i - 1, j - 1); }
  }

  lemma {:induction false} OfHas(s: seq<Item>, i: nat)
    requires i < |s|
    ensures |Of(s, s[i].id)| >= 1
  {
    if i > 0 { OfHas(s[1..], i - 1); }
  }

  lemma {:induction false} OfSelect(s: seq<Item>, keep: seq<bool>, id: nat)
    requires |s| == |keep| && Of(s, id) == []
    ensures Of(Select(s, keep), id) == []
  {
    if s != [] {
      var n := |s| - 1;
      assert s == s[..n] + [s[n]];
      OfAppend(s[..n], [s[n]], id);
      assert |Of(s[..n], id)| + |Of([s[n]], id)| == 0;
      OfSelect(s[..n], keep[..n], id);
      OfAppend(Select(s[..n], keep[..n]), [s[n]], id);
      assert Select(s[..n], keep[..n]) + [] == Select(s[..n], keep[..n]);
    }
  }

  /** Distinct sends leave distinct ids in the queue, and the held item was not admitted before. */
  lemma DistinctQueue(s: S.Sender)
    requires S.InOrder(s) && SentOnce(s)
    ensures S.DistinctIds(s)
  {
    hide Select;
    forall i, j | 0 <= i < j < |s.queue| ensures s.queue[i].id != s.queue[j].id {
      if s.queue[i].id == s.queue[j].id {
        OfCount(s.queue, i, j);
        QueueShare(s, s.queue[i].id);
      }
    }
    if !s.thread.Idle? {
      forall i | 0 <= i < |s.queue| ensures s.queue[i].id != s.thread.item.id {
        OfHas(s.queue, i);
        OfHas(s.thread.Items(), 0);
        QueueShare(s, s.queue[i].id);
      }
    }
  }

  lemma QueueShare(s: S.Sender, id: nat)
    requires S.InOrder(s) && SentOnce(s)
    ensures |Of(s.handled, id)| + |Of(s.thread.Items(), id)| + |Of(s.queue, id)| <= 1
  {
    hide Of, Select;
    assert |Of(s.handled, id) + Of(s.thread.Items(), id) + Of(s.queue, id)| == |Of(s.enqueued, id)|;
  }

  lemma NotAdmittedBefore(y: System)
    requires S.InOrder(y.sender) && SentOnce(y.sender) && Agreed(y) && y.sender.thread.Offering? && y.reply.None?
    ensures !R.HasId(y.receiver.admitted, y.sender.thread.item.id)
  {
    var s := y.sender;
    var id := s.thread.item.id;
    OfHas(s.thread.Items(), 0);
    QueueShare(s, id);
    OfSelect(s.handled, s.oks, id);
    assert Of(y.receiver.admitted, id) == [] by { assert y.receiver.admitted == s.accepted; }
    if R.HasId(y.receiver.admitted, id) {
      var i :| 0 <= i < |y.receiver.admitted| && y.receiver.admitted[i].id == id;
      OfHas(y.receiver.admitted, i);
      assert false;
    }
  }

  lemma SentOnceStep(s: S.Sender, a: S.Action)
    requires S.Enabled(s, a) && SentOnce(s)
    requires a.Enqueue? ==> a.item.bytes > 0 && Of(s.enqueued, a.item.id) == []
    ensures SentOnce(S.Apply(s, a))
  {
    hide Of;
    if a.Enqueue? {
      forall id ensures |Of(s.enqueued + [a.item], id)| <= 1 {
        OfAppend(s.enqueued, [a.item], id);
        OfOne(a.item, id);
      }
    }
  }

  lemma OfOne(x: Item, id: nat)
    ensures |Of([x], id)| == if x.id == id then 1 else 0
  {
  }

  ghost predicate Serving(y: System) {
    Agreed(y) && EndsInOrder(y) && SentOnce(y.sender) && R.Orderly(y.receiver)
  }

  lemma ServingSender(y: System, p: Step)
    requires Serving(y) && Enabled(y, p) && OrderlyStep(y, p)
    ensures SentOnce(Apply(y, p).sender)
  {
    hide SentOnce, Agreed, EndsInOrder, R.Orderly, Of, R.OrderlyEvent;
    match p
    case Send(item) => SentOnceStep(y.sender, S.Enqueue(item));
    case TakeNext => SentOnceStep(y.sender, S.Pop);
    case Hear => SentOnceStep(y.sender, S.Answer(y.reply.value));
    case Rotate => SentOnceStep(y.sender, S.Requeue);
    case RetireSend => SentOnceStep(y.sender, S.Retire);
    case Serve(_) =>
    case Receive(_) =>
  }

  lemma ServingReceiver(y: System, p: Step)
    requires Serving(y) && Enabled(y, p) && OrderlyStep(y, p)
    ensures R.Orderly(Apply(y, p).receiver)
  {
    hide Agreed, EndsInOrder, R.Orderly, Of, R.HasId, R.Distinct;
    match p
    case Serve(oom) =>
      assert S.InOrder(y.sender) by { EndsSender(y); }
      NotAdmittedBefore(y);
      R.OrderlyStep(y.receiver, R.Offer(y.sender.thread.item, oom));
    case Receive(e) => R.OrderlyStep(y.receiver, e);
    case Send(_) =>
    case TakeNext =>
    case Hear =>
    case Rotate =>
    case RetireSend =>
  }

  lemma EndsSender(y: System)
    requires EndsInOrder(y)
    ensures S.InOrder(y.sender)
  {
  }

  lemma StartsServing(size: int)
    ensures Serving(Start(size))
  {
    StartsInOrder(size);
    hide Agreed, EndsInOrder;
  }

  lemma {:induction false} AlwaysServing(states: seq<System>, steps: seq<Step>, size: int, i: nat)
    requires OrderlyRun(states, steps) && i < |states| && states[0] == Start(size)
    ensures Serving(states[i])
  {
    hide SentOnce, R.Orderly, Agreed, EndsInOrder, OrderlyStep, Enabled, Apply, Start;
    if i == 0 {
      StartsServing(size);
    } else {
      AlwaysServing(states, steps, size, i - 1);
      AgreedStep(states[i - 1], steps[i - 1]);
      EndsStep(states[i - 1], steps[i - 1]);
      ServingSender(states[i - 1], steps[i - 1]);
      ServingReceiver(states[i - 1], steps[i - 1]);
    }
  }

  /** Items taken from the queue by the steps from a up to b. */
  function Pops(steps: seq<Step>, a: nat, b: nat): nat
    requires a <= b <= |steps|
    decreases b
  {
    if a == b then 0 else Pops(steps, a, b - 1) + (if steps[b - 1].TakeNext? then 1 else 0)
  }

  lemma QueueMoves(y: System, p: Step, k: nat)
    requires S.InOrder(y.sender) && SentOnce(y.sender) && Enabled(y, p)
    requires k < |y.sender.queue| && (p.TakeNext? ==> k > 0)
    ensures var q, k' := Apply(y, p).sender.queue, if p.TakeNext? then k - 1 else k; k' < |q| && q[k'] == y.sender.queue[k]
  {
    DistinctQueue(y.sender);
    hide SentOnce, S.InOrder, S.DistinctIds, S.Reinsert;
    match p
    case Send(item) => S.RotationStep(y.sender, S.Enqueue(item), k);
    case TakeNext => S.RotationStep(y.sender, S.Pop, k);
    case Hear => S.RotationStep(y.sender, S.Answer(y.reply.value), k);
    case Rotate => S.RotationStep(y.sender, S.Requeue, k);
    case RetireSend => S.RotationStep(y.sender, S.Retire, k);
    case Serve(_) =>
    case Receive(_) =>
  }

  lemma {:induction false} QueuePosition(states: seq<System>, steps: seq<Step>, size: int, i: nat, k: nat, j: nat)
    requires OrderlyRun(states, steps) && states[0] == Start(size)
    requires i <= j < |states| && k < |states[i].sender.queue| && Pops(steps, i, j) <= k
    ensures var k', q := k - Pops(steps, i, j), states[j].sender.queue; k' < |q| && q[k'] == states[i].sender.queue[k]
    decreases j
  {
    hide SentOnce, R.Orderly, Agreed, OrderlyStep, Enabled, Apply, Start, S.InOrder;
    if i < j {
      QueuePosition(states, steps, size, i, k, j - 1);
      AlwaysServing(states, steps, size, j - 1);
      QueueMoves(states[j - 1], steps[j - 1], k - Pops(steps, i, j - 1));
    }
  }

  /** No starvation: the item at position k of the queue is the (k + 1)-st one taken
      from now on, whatever is refused or sent meanwhile; and if it belongs to a
      waiting request of the current decode step when the listener serves it, then it
      is admitted unless the payload of a request of that step already is. */
  lemma StepAdvances(states: seq<System>, steps: seq<Step>, size: int, i: nat, k: nat, j: nat, m: nat)
    requires OrderlyRun(states, steps) && states[0] == Start(size)
    requires i <= j < m < |steps| && k < |states[i].sender.queue| && Pops(steps, i, j) == k
    requires steps[j].TakeNext? && steps[m].Serve? && forall l :: j < l < m ==> !steps[l].Serve? && !steps[l].Hear?
    ensures states[m].sender.thread == S.Offering(states[i].sender.queue[k])
    ensures var item, r := states[i].sender.queue[k], states[m].receiver;
      item.id in r.pending ==>
        || states[m + 1].reply == Some(AckOk)
        || exists id :: R.Unfinished(r, id) && R.HoldsId(r, id)
  {
    hide Serving, R.HoldsId, R.Unfinished, Pops;
    QueuePosition(states, steps, size, i, k, j);
    TakenIs(states[j], steps[j]);
    hide Apply;
    Holding(states, steps, j + 1, m);
    AlwaysServing(states, steps, size, m);
    if states[m].sender.thread.item.id in states[m].receiver.pending { ServedOrShared(states[m], steps[m]); }
  }

  lemma {:induction false} Holding(states: seq<System>, steps: seq<Step>, a: nat, b: nat)
    requires IsRun(states, steps) && a <= b < |states| && states[a].sender.thread.Offering?
    requires forall l :: a <= l < b ==> !steps[l].Hear?
    ensures states[b].sender.thread == states[a].sender.thread
    decreases b
  {
    if a < b { Holding(states, steps, a, b - 1); }
  }

  lemma TakenIs(y: System, p: Step)
    requires p.TakeNext? && Enabled(y, p)
    ensures Apply(y, p).sender.thread == S.Offering(y.sender.queue[0])
  {
  }

  lemma ServedOrShared(y: System, p: Step)
    requires Serving(y) && p == Serve(false) && Enabled(y, p) && y.sender.thread.item.id in y.receiver.pending
    ensures Apply(y, p).reply == Some(AckOk) || exists id :: R.Unfinished(y.receiver, id) && R.HoldsId(y.receiver, id)
  {
    hide Agreed, EndsInOrder, SentOnce;
    var r := y.receiver;
    if r.priority.Some? { assert R.Unfinished(r, r.priority.value) && R.HoldsId(r, r.priority.value); }
  }

  // ----- Nothing scheduled is lost or stuck -----

  ghost predicate AllTrue(s: seq<bool>) {
    forall i :: 0 <= i < |s| ==> s[i]
  }

  /** Nothing was refused for memory and no receive has failed. */
  ghost predicate Unfailing(y: System) {
    y.reply != Some(AckOom) && AllTrue(y.sender.oks) && AllTrue(y.receiver.goods)
  }

  lemma UnfailingStep(y: System, p: Step)
    requires Unfailing(y) && Enabled(y, p) && OrderlyStep(y, p)
    ensures Unfailing(Apply(y, p))
  {
    match p
    case Receive(e) => GoodsKept(y.receiver, e);
    case Serve(oom) => GoodsOffered(y.receiver, y.sender.thread.item);
    case Send(_) =>
    case TakeNext =>
    case Hear =>
    case Rotate =>
    case RetireSend =>
  }

  lemma GoodsKept(r: R.Receiver, e: R.Event)
    requires R.Enabled(r, e) && !e.Offer? && R.OrderlyEvent(r, e) && AllTrue(r.goods)
    ensures AllTrue(R.Apply(r, e).goods)
  {
    hide R.HasId, R.Distinct;
  }

  lemma GoodsOffered(r: R.Receiver, item: Item)
    ensures R.OfferStep(r, item, false).goods == r.goods
  {
  }

  lemma {:induction false} AlwaysUnfailing(states: seq<System>, steps: seq<Step>, size: int, i: nat)
    requires OrderlyRun(states, steps) && i < |states| && states[0] == Start(size)
    ensures Unfailing(states[i])
  {
    hide OrderlyStep, Enabled, Apply;
    if i > 0 {
      AlwaysUnfailing(states, steps, size, i - 1);
      hide Unfailing;
      UnfailingStep(states[i - 1], steps[i - 1]);
    }
  }

  lemma {:induction false} OfHasId(s: seq<Item>, id: nat)
    ensures Of(s, id) != [] <==> R.HasId(s, id)
  {
    if s != [] {
      OfFirst(s, id);
      OfHasId(s[1..], id);
      hide Of;
      if s[0].id == id { assert R.HasId(s, id); }
      if R.HasId(s[1..], id) {
        var i :| 0 <= i < |s[1..]| && s[1..][i].id == id;
        assert s[i + 1].id == id;
      }
      if R.HasId(s, id) && s[0].id != id {
        var i :| 0 <= i < |s| && s[i].id == id;
        assert s[1..][i - 1].id == id;
      }
    }
  }

  lemma InHeld(r: R.Receiver, id: nat)
    requires R.HasId(r.completions, id) || R.HasId(r.received, id) || R.HasId(r.buffered, id)
    ensures R.HoldsId(r, id)
  {
    if R.HasId(r.completions, id) {
      var i :| 0 <= i < |r.completions| && r.completions[i].id == id;
      assert r.completions[i] in R.Bag(r);
    } else if R.HasId(r.received, id) {
      var i :| 0 <= i < |r.received| && r.received[i].id == id;
      assert r.received[i] in multiset(r.received) && r.received[i] in R.Bag(r);
    } else {
      var i :| 0 <= i < |r.buffered| && r.buffered[i].id == id;
      R.InBag(r, r.buffered[i]);
    }
  }

  /** An answered send of a request that still waits is held by the receiver. */
  lemma HandledIsHeld(y: System, id: nat)
    requires Agreed(y) && EndsInOrder(y) && Unfailing(y)
    requires R.HasId(y.sender.handled, id) && !R.HasId(y.receiver.consumed, id)
    ensures R.HoldsId(y.receiver, id)
  {
    hide Of, Select, R.HasId, R.HoldsId, S.Accounted, R.Accounted;
    var s, r := y.sender, y.receiver;
    SelectAll(s.handled, s.oks);
    SelectAll(r.completed, r.goods);
    OfHasId(s.handled, id);
    OfAppend(s.accepted, Unheard(y), id);
    OfAppend(r.completed, r.completions, id);
    OfHasId(r.completions, id);
    OfHasId(r.consumed, id);
    OfHasId(r.buffered, id);
    OfHasId(r.received, id);
    assert Of(r.consumed, id) + Of(r.buffered, id) + Of(r.received, id) == Of(r.published, id);
    InHeldIf(r, id);
  }

  lemma InHeldIf(r: R.Receiver, id: nat)
    ensures R.HasId(r.completions, id) || R.HasId(r.received, id) || R.HasId(r.buffered, id) ==> R.HoldsId(r, id)
  {
    hide R.HasId, R.HoldsId;
    if R.HasId(r.completions, id) || R.HasId(r.received, id) || R.HasId(r.buffered, id) { InHeld(r, id); }
  }

  /** Every waiting request whose payload was sent has it held, offered or queued. */
  lemma WaitingIsOnItsWay(states: seq<System>, steps: seq<Step>, size: int, i: nat, id: nat)
    requires OrderlyRun(states, steps) && i < |states| && states[0] == Start(size)
    requires id in states[i].receiver.pending && R.HasId(states[i].sender.enqueued, id)
    ensures OnItsWay(states[i], id)
  {
    hide *;
    AlwaysServing(states, steps, size, i);
    AlwaysUnfailing(states, steps, size, i);
    SentIsOnItsWay(states[i], id);
  }

  ghost predicate OnItsWay(y: System, id: nat) {
    R.HoldsId(y.receiver, id) || R.HasId(y.sender.thread.Items(), id) || R.HasId(y.sender.queue, id)
  }

  lemma SentIsOnItsWay(y: System, id: nat)
    requires Serving(y) && Unfailing(y) && id in y.receiver.pending && R.HasId(y.sender.enqueued, id)
    ensures OnItsWay(y, id)
  {
    PendingUnconsumed(y.receiver, id);
    hide R.Orderly, Agreed, R.HasId, R.HoldsId, Unfailing, SentOnce;
    SentIsSomewhere(y.sender, id);
    if R.HasId(y.sender.handled, id) { HandledIsHeld(y, id); }
  }

  lemma PendingUnconsumed(r: R.Receiver, id: nat)
    requires R.Orderly(r) && id in r.pending
    ensures !R.HasId(r.consumed, id)
  {
    hide R.HasId, R.AdmittedOnce, R.PriorityUseful;
  }

  lemma SentIsSomewhere(s: S.Sender, id: nat)
    requires S.InOrder(s) && R.HasId(s.enqueued, id)
    ensures R.HasId(s.handled, id) || R.HasId(s.thread.Items(), id) || R.HasId(s.queue, id)
  {
    hide Of, Select, R.HasId;
    OfHasId(s.enqueued, id);
    OfHasId(s.handled, id);
    OfHasId(s.thread.Items(), id);
    OfHasId(s.queue, id);
    assert Of(s.handled, id) + Of(s.thread.Items(), id) + Of(s.queue, id) == Of(s.enqueued, id);
  }

  /** A thread other than the caller of send has something to do. */
  predicate CanMove(y: System) {
    || R.Enabled(y.receiver, R.Release) || R.Enabled(y.receiver, R.Complete(true))
    || R.Enabled(R.Apply(y.receiver, R.Drain), R.Consume)
    || Enabled(y, TakeNext) || Enabled(y, Serve(false)) || Enabled(y, Hear) || Enabled(y, Rotate)
  }

  /** While a waiting request's payload has been sent, some thread can move.  That the
      step itself can then be brought to its end is NcclProgress.StepCanFinish. */
  lemma StepNeverStuck(states: seq<System>, steps: seq<Step>, size: int, i: nat, id: nat)
    requires OrderlyRun(states, steps) && i < |states| && states[0] == Start(size)
    requires states[i].receiver.inStep && id in states[i].receiver.pending && R.HasId(states[i].sender.enqueued, id)
    ensures CanMove(states[i])
  {
    hide *;
    WaitingIsOnItsWay(states, steps, size, i, id);
    CanMoveOn(states[i], id);
  }

  lemma CanMoveOn(y: System, id: nat)
    requires y.receiver.inStep && id in y.receiver.pending && OnItsWay(y, id)
    ensures CanMove(y)
  {
    hide R.HoldsId;
    if y.receiver.working.None? && R.HoldsId(y.receiver, id) { R.HeldCanAdvance(y.receiver, id); }
  }
}
