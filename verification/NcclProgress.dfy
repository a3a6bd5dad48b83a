/** A decode step of the NCCL transport can always finish: from every state in which the
    payloads it waits for have been sent, the threads of both ends, left to themselves,
    can load every one of them. */
module NcclProgress {
  import opened Wrappers
  import opened Payloads
  import opened NcclSystem
  import S = SendQueue
  import R = RecvBudget

  // ----- Steps that the threads take by themselves -----

  /** No further send, and no decode step begins or ends. */
  predicate Internal(p: Step) {
    && !p.Send? && p != Serve(true)
    && (p.Receive? ==> p.event == R.Complete(true) || p.event.Drain? || p.event.Consume? || p.event.Release?)
  }

  /** The steps lead from y to z, all of them internal and orderly. */
  ghost predicate Leads(y: System, path: seq<Step>, z: System)
    decreases |path|
  {
    if path == [] then y == z
    else Enabled(y, path[0]) && Internal(path[0]) && Leads(Apply(y, path[0]), path[1..], z)
  }

  lemma InternalIsOrderly(y: System, p: Step)
    requires Internal(p)
    ensures OrderlyStep(y, p)
  {
  }

  lemma LeadsOne(y: System, p: Step)
    requires Enabled(y, p) && Internal(p)
    ensures Leads(y, [p], Apply(y, p))
  {
    hide Enabled, Apply, Internal;
    assert [p][1..] == [];
  }

  lemma {:induction false} LeadsJoin(y: System, a: seq<Step>, m: System, b: seq<Step>, z: System)
    requires Leads(y, a, m) && Leads(m, b, z)
    ensures Leads(y, a + b, z)
    decreases |a|
  {
    hide Enabled, Apply, Internal;
    if a == [] {
      assert a + b == b;
    } else {
      assert (a + b)[1..] == a[1..] + b;
      LeadsJoin(Apply(y, a[0]), a[1..], m, b, z);
    }
  }

  // ----- What such steps keep -----

  /** A state of an orderly run inside a decode step whose waiting payloads were all sent. */
  ghost predicate Waits(y: System) {
    && Serving(y) && Unfailing(y) && y.receiver.inStep
    && forall id :: id in y.receiver.pending ==> R.HasId(y.sender.enqueued, id)
  }

  /** From y on no request is added to the step and nothing is sent. */
  ghost predicate SameStep(y: System, z: System) {
    && z.receiver.inStep == y.receiver.inStep && z.receiver.expected == y.receiver.expected
    && z.sender.enqueued == y.sender.enqueued && |z.receiver.pending| <= |y.receiver.pending|
    && forall id :: id in z.receiver.pending ==> id in y.receiver.pending
  }

  lemma InternalSameStep(y: System, p: Step)
    requires Enabled(y, p) && Internal(p)
    ensures SameStep(y, Apply(y, p))
  {
    hide R.HasId, S.Reinsert, R.FirstReady;
    if p.Receive? && p.event.Consume? { assert Apply(y, p).receiver == R.ConsumeStep(y.receiver); }
  }

  lemma InternalWaits(y: System, p: Step)
    requires Waits(y) && Enabled(y, p) && Internal(p)
    ensures Waits(Apply(y, p)) && SameStep(y, Apply(y, p))
  {
    InternalIsOrderly(y, p);
    InternalSameStep(y, p);
    UnfailingStep(y, p);
    hide Unfailing, Apply, Enabled, Internal, OrderlyStep, Agreed, EndsInOrder, SentOnce, R.Orderly, R.HasId;
    AgreedStep(y, p);
    EndsStep(y, p);
    ServingSender(y, p);
    ServingReceiver(y, p);
  }

  lemma {:induction false} LeadsWaits(y: System, path: seq<Step>, z: System)
    requires Waits(y) && Leads(y, path, z)
    ensures Waits(z) && SameStep(y, z)
    decreases |path|
  {
    hide Waits, Enabled, Apply, Internal;
    if path != [] {
      InternalWaits(y, path[0]);
      LeadsWaits(Apply(y, path[0]), path[1..], z);
    }
  }

  // ----- Loading a held payload -----

  /** The payload being loaded is released. */
  lemma Unload(y: System) returns (path: seq<Step>, z: System)
    requires Waits(y)
    ensures Leads(y, path, z) && z.receiver.working.None?
  {
    hide Leads, Serving, Unfailing;
    if y.receiver.working.None? {
      path, z := [], y;
      LeadsNowhere(y);
    } else {
      path, z := [Receive(R.Release)], Apply(y, Receive(R.Release));
      LeadsOne(y, Receive(R.Release));
    }
  }

  lemma LeadsNowhere(y: System)
    ensures Leads(y, [], y)
  {
  }

  lemma LeadsTwo(y: System, p: Step, q: Step)
    requires Enabled(y, p) && Internal(p) && Enabled(Apply(y, p), q) && Internal(q)
    ensures Leads(y, [p] + [q], Apply(Apply(y, p), q))
  {
    hide Enabled, Apply, Internal, Leads;
    LeadsOne(y, p);
    LeadsOne(Apply(y, p), q);
    LeadsJoin(y, [p], Apply(y, p), [q], Apply(Apply(y, p), q));
  }

  /** A request of the step whose payload is held is waiting no more. */
  lemma {:induction false} LoadHeld(y: System, id: nat) returns (path: seq<Step>, z: System)
    requires y.receiver.inStep && y.receiver.working.None? && id in y.receiver.pending && R.HoldsId(y.receiver, id)
    ensures Leads(y, path, z) && |z.receiver.pending| < |y.receiver.pending|
    decreases |y.receiver.completions|
  {
    R.HeldCanAdvance(y.receiver, id);
    if R.Enabled(y.receiver, R.Complete(true)) {
      var m := Completed(y, id);
      var rest;
      rest, z := LoadHeld(m, id);
      path := [Receive(R.Complete(true))] + rest;
      LeadsJoin(y, [Receive(R.Complete(true))], m, rest, z);
    } else {
      path := [Receive(R.Drain)] + [Receive(R.Consume)];
      z := Apply(Apply(y, Receive(R.Drain)), Receive(R.Consume));
      LeadsTwo(y, Receive(R.Drain), Receive(R.Consume));
    }
  }

  lemma Completed(y: System, id: nat) returns (m: System)
    requires y.receiver.completions != [] && R.HoldsId(y.receiver, id)
    ensures Leads(y, [Receive(R.Complete(true))], m) && R.HoldsId(m.receiver, id)
    ensures m.receiver == R.CompleteStep(y.receiver, true)
  {
    hide Leads, R.Bag;
    m := Apply(y, Receive(R.Complete(true)));
    LeadsOne(y, Receive(R.Complete(true)));
    R.CompleteBag(y.receiver, true);
  }

  // ----- Admitting a payload of the step -----

  ghost predicate StepHolds(y: System) {
    exists id :: id in y.receiver.pending && R.HoldsId(y.receiver, id)
  }

  /** The load loop has not run. */
  ghost predicate Unloaded(y: System, z: System) {
    z.receiver.pending == y.receiver.pending && z.receiver.working == y.receiver.working
  }

  /** The send thread comes to rest, and items keep their places in the queue. */
  lemma Settle(y: System) returns (path: seq<Step>, z: System)
    requires Waits(y)
    ensures Leads(y, path, z) && z.sender.thread.Idle? && Unloaded(y, z) && y.sender.queue <= z.sender.queue
  {
    hide Leads, Waits, Unloaded;
    match y.sender.thread
    case Idle =>
      path, z := [], y;
      LeadsNowhere(y);
      UnloadedHere(y);
    case Refused(_) =>
      path, z := Return(y);
    case Offering(_) =>
      if y.reply.Some? {
        path, z := Answer(y);
      } else {
        var m := Offered(y);
        var rest;
        rest, z := Answer(m);
        path := [Serve(false)] + rest;
        LeadsJoin(y, [Serve(false)], m, rest, z);
        UnloadedJoin(y, m, z);
      }
  }

  lemma UnloadedHere(y: System)
    ensures Unloaded(y, y)
  {
  }

  lemma UnloadedJoin(x: System, y: System, z: System)
    requires Unloaded(x, y) && Unloaded(y, z)
    ensures Unloaded(x, z)
  {
  }

  /** A refused item goes to the end: no queued item shares its id. */
  lemma Return(y: System) returns (path: seq<Step>, z: System)
    requires Waits(y) && y.sender.thread.Refused?
    ensures Leads(y, path, z) && z.sender.thread.Idle? && Unloaded(y, z) && y.sender.queue <= z.sender.queue
  {
    hide Leads, Agreed, R.Orderly, R.HasId, S.InOrder, S.Accounted, R.Accounted, R.InOrder, SentOnce, Unfailing;
    path, z := [Rotate], Apply(y, Rotate);
    LeadsOne(y, Rotate);
    DistinctQueue(y.sender);
    assert RetryIndex(y.sender.queue, y.sender.thread.item.id) == |y.sender.queue|;
  }

  lemma Offered(y: System) returns (z: System)
    requires Waits(y) && y.sender.thread.Offering? && y.reply.None?
    ensures Leads(y, [Serve(false)], z) && Waits(z) && Unloaded(y, z)
    ensures z.sender == y.sender && z.reply.Some?
    ensures z.receiver == R.OfferStep(y.receiver, y.sender.thread.item, false)
  {
    hide Leads, Waits;
    z := Apply(y, Serve(false));
    LeadsOne(y, Serve(false));
    InternalWaits(y, Serve(false));
  }

  lemma Answer(y: System) returns (path: seq<Step>, z: System)
    requires Waits(y) && y.sender.thread.Offering? && y.reply.Some?
    ensures Leads(y, path, z) && z.sender.thread.Idle? && Unloaded(y, z) && y.sender.queue <= z.sender.queue
  {
    hide Leads, Waits;
    path, z := [Hear], Apply(y, Hear);
    LeadsOne(y, Hear);
    InternalWaits(y, Hear);
    if y.reply.value.AckRetry? {
      var m, rest := z, path;
      rest, z := Return(m);
      path := [Hear] + rest;
      LeadsJoin(y, [Hear], m, rest, z);
    }
  }

  lemma Taken(y: System) returns (z: System)
    requires Waits(y) && y.sender.thread.Idle? && y.sender.queue != []
    ensures Leads(y, [TakeNext], z) && Waits(z) && Unloaded(y, z) && z.receiver == y.receiver && z.reply.None?
    ensures z.sender.thread == S.Offering(y.sender.queue[0]) && z.sender.queue == y.sender.queue[1..]
  {
    hide Leads, Waits;
    IdleHasNoReply(y);
    z := Apply(y, TakeNext);
    LeadsOne(y, TakeNext);
    InternalWaits(y, TakeNext);
  }

  lemma IdleHasNoReply(y: System)
    requires Waits(y) && y.sender.thread.Idle?
    ensures y.reply.None?
  {
  }

  /** While the step holds nothing, an offer of one of its payloads is admitted. */
  lemma OfferHolds(y: System)
    requires Waits(y) && y.receiver.working.None? && !StepHolds(y)
    requires y.sender.thread.Offering? && y.sender.thread.item.id in y.receiver.pending
    ensures R.HoldsId(R.OfferStep(y.receiver, y.sender.thread.item, false), y.sender.thread.item.id)
  {
    var r, item := y.receiver, y.sender.thread.item;
    assert R.Admits(r, item) by {
      hide R.HoldsId, R.HasId, Agreed, EndsInOrder, SentOnce, Unfailing, R.AdmittedOnce;
      assert R.PriorityUseful(r) && R.StepShape(r);
      assert r.priority.None?;
    }
    hide Waits, StepHolds, R.Bag, R.Admits;
    R.OfferBag(r, item);
    assert item in R.Bag(R.OfferStep(r, item, false));
  }

  /** The items ahead of position k are offered in turn, admitted or rotated away; then
      the step holds the payload at k, or another of its own. */
  lemma {:induction false} Admit(y: System, k: nat) returns (path: seq<Step>, z: System)
    requires Waits(y) && y.sender.thread.Idle? && y.receiver.working.None?
    requires k < |y.sender.queue| && y.sender.queue[k].id in y.receiver.pending
    ensures Leads(y, path, z) && Unloaded(y, z) && StepHolds(z)
    decreases k
  {
    hide Leads, Waits, StepHolds, R.OfferStep;
    var m := Taken(y);
    if StepHolds(y) {
      path, z := [], y;
      LeadsNowhere(y);
    } else if k == 0 {
      z := Offered(m);
      assert !StepHolds(m) by { SameHolds(y, m); }
      OfferHolds(m);
      assert StepHolds(z) by { HoldsOne(z, m.sender.thread.item.id); }
      path := [TakeNext] + [Serve(false)];
      LeadsJoin(y, [TakeNext], m, [Serve(false)], z);
    } else {
      var rest, n := Settle(m);
      LeadsWaits(m, rest, n);
      LeadsJoin(y, [TakeNext], m, rest, n);
      assert n.sender.queue[k - 1] == m.sender.queue[k - 1] == y.sender.queue[k];
      var more;
      more, z := Admit(n, k - 1);
      path := [TakeNext] + rest + more;
      LeadsJoin(y, [TakeNext] + rest, n, more, z);
    }
  }

  lemma SameHolds(y: System, z: System)
    requires z.receiver == y.receiver
    ensures StepHolds(z) == StepHolds(y)
  {
  }

  lemma HoldsOne(y: System, id: nat)
    requires id in y.receiver.pending && R.HoldsId(y.receiver, id)
    ensures StepHolds(y)
  {
  }

  /** Some payload of an unfinished idle step is admitted. */
  lemma AdmitSome(y: System) returns (path: seq<Step>, z: System)
    requires Waits(y) && y.receiver.working.None? && y.receiver.pending != []
    ensures Leads(y, path, z) && Unloaded(y, z) && StepHolds(z)
  {
    hide Leads, StepHolds, Serving, Unfailing, R.HasId, R.HoldsId;
    var rest, m := Settle(y);
    LeadsWaits(y, rest, m);
    var id := m.receiver.pending[0];
    SentIsOnItsWay(m, id);
    if R.HoldsId(m.receiver, id) {
      path, z := rest, m;
      HoldsOne(m, id);
    } else {
      var k := Queued(m.sender, id);
      hide Waits;
      var more;
      more, z := Admit(m, k);
      path := rest + more;
      LeadsJoin(y, rest, m, more, z);
    }
  }

  lemma Queued(s: S.Sender, id: nat) returns (k: nat)
    requires s.thread.Idle? && (R.HasId(s.thread.Items(), id) || R.HasId(s.queue, id))
    ensures k < |s.queue| && s.queue[k].id == id
  {
    k :| 0 <= k < |s.queue| && s.queue[k].id == id;
  }

  // ----- The step -----

  /** From y the threads can load every payload the step waits for. */
  lemma {:induction false} LoadAll(y: System) returns (path: seq<Step>, z: System)
    requires Waits(y)
    ensures Leads(y, path, z) && z.receiver.working.None? && z.receiver.pending == []
    decreases |y.receiver.pending|
  {
    hide Leads, Waits, StepHolds, R.HoldsId;
    var first, a := Unload(y);
    LeadsWaits(y, first, a);
    path, z := first, a;
    if a.receiver.pending != [] {
      var second, b := AdmitSome(a);
      LeadsWaits(a, second, b);
      LeadsJoin(y, first, a, second, b);
      var id := Holder(b);
      var third, c := LoadHeld(b, id);
      LeadsWaits(b, third, c);
      LeadsJoin(y, first + second, b, third, c);
      var rest;
      rest, z := LoadAll(c);
      path := first + second + third + rest;
      LeadsJoin(y, first + second + third, c, rest, z);
    }
  }

  lemma Holder(y: System) returns (id: nat)
    requires Waits(y) && StepHolds(y)
    ensures y.receiver.inStep && id in y.receiver.pending && R.HoldsId(y.receiver, id)
  {
    id :| id in y.receiver.pending && R.HoldsId(y.receiver, id);
  }

  /** The decode step can end, and every request of it was loaded. */
  ghost predicate Finished(y: System, z: System) {
    && Enabled(z, Receive(R.EndStep))
    && forall id :: id in y.receiver.expected ==> R.HasId(z.receiver.consumed, id)
  }

  lemma AllLoaded(y: System, z: System)
    requires Waits(z) && SameStep(y, z) && z.receiver.working.None? && z.receiver.pending == []
    ensures Finished(y, z)
  {
    hide R.HasId, Agreed, EndsInOrder, SentOnce, Unfailing, R.AdmittedOnce, R.PriorityUseful, R.Distinct;
    assert R.StepShape(z.receiver);
  }

  lemma {:induction false} LeadsExtends(states: seq<System>, steps: seq<Step>, path: seq<Step>, z: System) returns (more: seq<System>)
    requires OrderlyRun(states, steps) && Leads(states[|steps|], path, z)
    ensures OrderlyRun(states + more, steps + path) && |more| == |path| && (states + more)[|steps| + |path|] == z
    decreases |path|
  {
    if path == [] {
      more := [];
      assert states + more == states && steps + path == steps;
    } else {
      var p, y := path[0], states[|steps|];
      InternalIsOrderly(y, p);
      var next := Apply(y, p);
      hide Enabled, Apply, Internal, OrderlyStep;
      OneMore(states, steps, p);
      var rest := LeadsExtends(states + [next], steps + [p], path[1..], z);
      more := [next] + rest;
      assert states + [next] + rest == states + more;
      assert steps + [p] + path[1..] == steps + path;
    }
  }

  lemma OneMore(states: seq<System>, steps: seq<Step>, p: Step)
    requires OrderlyRun(states, steps) && Enabled(states[|steps|], p) && OrderlyStep(states[|steps|], p)
    ensures OrderlyRun(states + [Apply(states[|steps|], p)], steps + [p])
  {
    hide Enabled, Apply, OrderlyStep;
    var ss, ps := states + [Apply(states[|steps|], p)], steps + [p];
    forall i | 0 <= i < |ps| ensures Enabled(ss[i], ps[i]) && ss[i + 1] == Apply(ss[i], ps[i]) && OrderlyStep(ss[i], ps[i]) {
      if i < |steps| { assert ss[i] == states[i] && ss[i + 1] == states[i + 1] && ps[i] == steps[i]; }
    }
  }

  /** Every decode step can finish.  Whatever has happened in an orderly run, if the
      step's waiting payloads have been sent then the run has a continuation, without
      another send, at whose end every request of the step was loaded and the step ends:
      no backpressure, refusal or priority can leave it stuck. */
  lemma StepCanFinish(states: seq<System>, steps: seq<Step>, size: int)
    requires OrderlyRun(states, steps) && states[0] == Start(size)
    requires var y := states[|steps|];
      y.receiver.inStep && forall id :: id in y.receiver.pending ==> R.HasId(y.sender.enqueued, id)
    ensures exists more: seq<System>, path: seq<Step> ::
      && OrderlyRun(states + more, steps + path) && (forall k :: 0 <= k < |path| ==> Internal(path[k]))
      && Finished(states[|steps|], (states + more)[|steps| + |path|])
  {
    hide Serving, Unfailing, R.HasId, OrderlyStep, Enabled, Apply, Start, Internal, Leads, Finished;
    AlwaysServing(states, steps, size, |steps|);
    AlwaysUnfailing(states, steps, size, |steps|);
    var y := states[|steps|];
    assert Waits(y);
    hide Waits, OrderlyRun;
    var path, z := LoadAll(y);
    LeadsWaits(y, path, z);
    AllLoaded(y, z);
    AllInternal(y, path, z);
    var more := LeadsExtends(states, steps, path, z);
  }

  lemma {:induction false} AllInternal(y: System, path: seq<Step>, z: System)
    requires Leads(y, path, z)
    ensures forall k :: 0 <= k < |path| ==> Internal(path[k])
    decreases |path|
  {
    hide Enabled, Apply, Internal;
    if path != [] {
      AllInternal(Apply(y, path[0]), path[1..], z);
      assert forall k :: 0 < k < |path| ==> path[k] == path[1..][k - 1];
    }
  }
}
