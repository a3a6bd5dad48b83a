/** When the expiry sweep is safe: exactly when no open still polls the send state it
    frees.  The sweep is the one action whose promise the helper itself does not keep. */
module SessionExpiry {
  import opened SessionModel
  import opened SessionAbort
  import opened SessionFreeing

  /** The sweep frees a transfer nothing claims, whose needed sends have not all finished. */
  lemma SweptState(st: State, slotCount: nat, tid: Name)
    requires Refs(st) && Enabled(st, Sweep(tid)) && Good(st, slotCount)
    ensures var e := st.book.sends[st.book.meta[tid]];
      e.tid == tid && e.ready && e.sending == 0 && !Freed(st.book, tid) && (e.needSend > 0 ==> e.sent < e.needSend)
  {
    hide Good, Freed, TaskRefs, Polled;
    GoodFits(st, slotCount, st.book.meta[tid]);
  }

  lemma SweepFrees(st: State, tid: Name)
    requires tid in st.book.meta && st.book.meta[tid] in st.book.sends
    ensures Freed(ApplySweep(st, tid).book, tid)
  {
    assert ApplySweep(st, tid).book.events[|st.book.events|].tid == tid;
  }

  lemma PolledBreaks(st: State, slotCount: nat, tid: Name)
    requires Refs(st) && Enabled(st, Sweep(tid)) && Good(st, slotCount) && st.book.meta[tid] in Polled(st.tasks)
    ensures !Good(Apply(st, Sweep(tid)), slotCount)
  {
    hide Good, Freed, Polled, TaskRefs, SendFits;
    SweptState(st, slotCount, tid);
    SweepFrees(st, tid);
    var st' := ApplySweep(st, tid);
    UnfitWhilePolled(st'.book, Polled(st'.tasks), st.book.meta[tid]);
    if Good(st', slotCount) { GoodFits(st', slotCount, st.book.meta[tid]); }
  }

  lemma GoodFits(st: State, slotCount: nat, s: Ref)
    requires Good(st, slotCount) && s in st.book.sends
    ensures SendFits(st.book, Polled(st.tasks), s)
  {
    hide Base, SendFits;
  }

  lemma UnfitWhilePolled(b: Book, polled: set<Ref>, s: Ref)
    requires s in b.sends && s in polled && b.sends[s].ready && Freed(b, b.sends[s].tid)
    requires b.sends[s].needSend > 0 ==> b.sends[s].sent < b.sends[s].needSend
    ensures !SendFits(b, polled, s)
  {
  }

  /** An open polls the state that the transfer's sweep would free. */
  ghost predicate PolledAt(st: State, tid: Name) {
    tid in st.book.meta && st.book.meta[tid] in Polled(st.tasks)
  }

  /** A sweep keeps the freeing invariant exactly when no open polls the state it frees. */
  lemma SweepKeepsGood(st: State, slotCount: nat, tid: Name)
    requires Refs(st) && Enabled(st, Sweep(tid)) && Good(st, slotCount)
    ensures Good(Apply(st, Sweep(tid)), slotCount) <==> !PolledAt(st, tid)
  {
    hide Good, Polled, Apply;
    if st.book.meta[tid] in Polled(st.tasks) {
      PolledBreaks(st, slotCount, tid);
    } else {
      assert Honest(st, Sweep(tid));
      StepGood(st, Sweep(tid), slotCount);
    }
  }

  /** An open polls s, which is ready, may be claimed and has been freed. */
  ghost predicate Late(st: State, t: Ref, s: Ref, tid: Name) {
    && t in st.tasks && st.tasks[t].pc.OpenPolling? && st.tasks[t].pc.send == s && st.tasks[t].skey.tid == tid
    && s in st.book.sends && st.book.sends[s].ready
    && (st.book.sends[s].needSend != 0 ==> st.book.sends[s].sending + st.book.sends[s].sent < st.book.sends[s].needSend)
    && Freed(st.book, tid)
  }

  lemma SweepMakesLate(st: State, slotCount: nat, tid: Name, t: Ref)
    requires Refs(st) && Enabled(st, Sweep(tid)) && Good(st, slotCount)
    requires t in st.tasks && st.tasks[t].pc.OpenPolling? && st.tasks[t].pc.send == st.book.meta[tid]
    ensures Late(Apply(st, Sweep(tid)), t, st.book.meta[tid], tid)
  {
    hide Good, Freed;
    SweptState(st, slotCount, tid);
    SweepFrees(st, tid);
    assert TaskRefs(st.book, st.tasks[t]);
    hide BookRefs, TaskRefs;
  }

  /** A late open whose key is not closed claims the freed transfer and submits its job. */
  lemma LateClaims(st: State, t: Ref, s: Ref, tid: Name)
    requires Refs(st) && Late(st, t, s, tid) && st.tasks[t].Key() !in st.closed
    ensures Enabled(st, OpenPoll(t)) && Honest(st, OpenPoll(t))
    ensures var st' := Apply(st, OpenPoll(t)); Freed(st'.book, tid) && !Quiet(st', tid)
  {
    hide BookRefs, TaskRefs, Freed, Claim;
    var st' := ApplyOpenPoll(st, t);
    assert st'.tasks[t].HasJob() && st'.tasks[t].skey.tid == tid;
    assert st'.book.events == st.book.events;
    SameFreed(st.book, st'.book, tid);
  }

  /** Any open that polls the swept state and whose key is not closed can wake up next:
      every promise is kept, the transfer is freed, and a job runs on its blocks. */
  lemma SweepOvertakesOpen(st: State, slotCount: nat, tid: Name, t: Ref)
    requires Refs(st) && Enabled(st, Sweep(tid)) && Good(st, slotCount)
    requires t in st.tasks && st.tasks[t].pc.OpenPolling? && st.tasks[t].pc.send == st.book.meta[tid]
    requires st.tasks[t].Key() !in st.closed
    ensures var st1 := Apply(st, Sweep(tid));
      && Refs(st1) && Enabled(st1, OpenPoll(t)) && Honest(st1, OpenPoll(t))
      && var st2 := Apply(st1, OpenPoll(t)); Freed(st2.book, tid) && !Quiet(st2, tid)
  {
    hide Good, Base, Late, TaskRefs, Freed, Quiet;
    SweepMakesLate(st, slotCount, tid, t);
    GoodBase(st, slotCount);
    StepBase(st, Sweep(tid), slotCount);
    var st1 := ApplySweep(st, tid);
    assert Apply(st, Sweep(tid)) == st1;
    BaseRefs(st1, slotCount);
    hide Refs, Apply, Enabled, Honest;
    LateClaims(st1, t, st.book.meta[tid], tid);
  }

  lemma GoodBase(st: State, slotCount: nat)
    requires Good(st, slotCount)
    ensures Base(st, slotCount)
  {
  }

  // ----- What can follow a sweep -----

  /** A run from any state in which every promise is kept. */
  ghost predicate HonestFrom(states: seq<State>, acts: seq<Action>) {
    && |states| == |acts| + 1
    && forall i :: 0 <= i < |acts| ==> HonestStep(states[i], acts[i], states[i + 1])
  }

  ghost predicate HonestStep(st: State, a: Action, st': State) {
    Refs(st) && Enabled(st, a) && Honest(st, a) && st' == Apply(st, a)
  }

  lemma {:induction false} HonestFromGood(states: seq<State>, acts: seq<Action>, slotCount: nat, i: nat)
    requires HonestFrom(states, acts) && i < |states| && Good(states[0], slotCount)
    ensures Good(states[i], slotCount)
  {
    hide Good, Refs, Enabled, Honest, Apply;
    if i > 0 {
      HonestFromGood(states, acts, slotCount, i - 1);
      assert HonestStep(states[i - 1], acts[i - 1], states[i]);
      StepGood(states[i - 1], acts[i - 1], slotCount);
    }
  }

  /** From st an honest run reaches a state where the freed transfer is not quiet. */
  ghost predicate Unsafe(st: State, tid: Name) {
    exists states: seq<State>, acts: seq<Action> ::
      HonestFrom(states, acts) && states[0] == st && Freed(states[|acts|].book, tid) && !Quiet(states[|acts|], tid)
  }

  lemma GoodIsSafe(st: State, slotCount: nat, tid: Name)
    requires Good(st, slotCount)
    ensures !Unsafe(st, tid)
  {
    hide Good, Freed, Quiet;
    forall states: seq<State>, acts: seq<Action> | HonestFrom(states, acts) && states[0] == st && Freed(states[|acts|].book, tid)
      ensures Quiet(states[|acts|], tid)
    {
      HonestFromGood(states, acts, slotCount, |acts|);
      FreedIsQuiet(states[|acts|], slotCount, tid);
    }
  }

  const LONG := PENDING_REQ_EXPIRY + 1.0

  /** However long the key of a late open stays closed: once its entry has expired and
      any request has purged it, the open claims the freed transfer. */
  lemma LateIsUnsafe(st: State, slotCount: nat, t: Ref, s: Ref, tid: Name)
    requires Base(st, slotCount) && Late(st, t, s, tid)
    ensures Unsafe(st, tid)
  {
    var task := st.tasks[t];
    var a1, a2, a3 := Tick(LONG), Dispatch(task.skey, task.nonce, PullRequest(0)), OpenPoll(t);
    var s1 := st.(now := st.now + LONG);
    var s2 := ApplyDispatch(s1, task.skey, task.nonce, PullRequest(0));
    var s3 := ApplyOpenPoll(s2, t);
    hide Base, Refs, Freed, Quiet, Late;
    Waits(st, slotCount, t, s, tid);
    BaseRefs(st, slotCount);
    BaseRefs(s1, slotCount);
    BaseRefs(s2, slotCount);
    LateClaims(s2, t, s, tid);
    TickHonest(st);
    PullHonest(s1, task.skey, task.nonce);
    assert HonestStep(s2, a3, s3) by { PollApplies(s2, t); }
    hide HonestStep;
    ThreeSteps(st, a1, s1, a2, s2, a3, s3, tid);
  }

  lemma TickHonest(st: State)
    requires Refs(st)
    ensures HonestStep(st, Tick(LONG), st.(now := st.now + LONG))
  {
    hide Refs;
  }

  lemma PullHonest(st: State, skey: SessionKey, nonce: Name)
    requires Refs(st)
    ensures HonestStep(st, Dispatch(skey, nonce, PullRequest(0)), ApplyDispatch(st, skey, nonce, PullRequest(0)))
  {
    hide Refs;
  }

  lemma PollApplies(st: State, t: Ref)
    requires Refs(st) && Enabled(st, OpenPoll(t))
    ensures Apply(st, OpenPoll(t)) == ApplyOpenPoll(st, t)
  {
    hide Refs;
  }

  lemma ThreeSteps(st: State, a1: Action, s1: State, a2: Action, s2: State, a3: Action, s3: State, tid: Name)
    requires HonestStep(st, a1, s1) && HonestStep(s1, a2, s2) && HonestStep(s2, a3, s3)
    requires Freed(s3.book, tid) && !Quiet(s3, tid)
    ensures Unsafe(st, tid)
  {
    hide HonestStep, Freed, Quiet;
    var states, acts := [st, s1, s2, s3], [a1, a2, a3];
    assert HonestFrom(states, acts) && states[0] == st && states[|acts|] == s3;
  }

  lemma Waits(st: State, slotCount: nat, t: Ref, s: Ref, tid: Name)
    requires Base(st, slotCount) && Late(st, t, s, tid)
    ensures var s1 := st.(now := st.now + LONG);
      var s2 := ApplyDispatch(s1, st.tasks[t].skey, st.tasks[t].nonce, PullRequest(0));
      && Base(s1, slotCount) && Base(s2, slotCount) && Late(s2, t, s, tid)
      && s2.tasks[t] == st.tasks[t] && s2.tasks[t].Key() !in s2.closed
  {
    hide Base, Refs, Freed;
    var task := st.tasks[t];
    hide Late;
    var s1 := st.(now := st.now + LONG);
    BaseRefs(st, slotCount);
    TickHonest(st);
    StepBase(st, Tick(LONG), slotCount);
    BaseRefs(s1, slotCount);
    PullHonest(s1, task.skey, task.nonce);
    StepBase(s1, Dispatch(task.skey, task.nonce, PullRequest(0)), slotCount);
    hide HonestStep;
    assert ClosedBounded(st) && t < st.next by { BaseFacts(st, slotCount, t); }
    StillLate(st, t, s, tid);
  }

  lemma BaseFacts(st: State, slotCount: nat, t: Ref)
    requires Base(st, slotCount) && t in st.tasks
    ensures ClosedBounded(st) && t < st.next
  {
  }

  lemma StillLate(st: State, t: Ref, s: Ref, tid: Name)
    requires Late(st, t, s, tid) && ClosedBounded(st) && t < st.next
    ensures var s1 := st.(now := st.now + LONG);
      var s2 := ApplyDispatch(s1, st.tasks[t].skey, st.tasks[t].nonce, PullRequest(0));
      Late(s2, t, s, tid) && s2.tasks[t] == st.tasks[t] && s2.tasks[t].Key() !in s2.closed
  {
    hide Freed;
  }

  /** From a good state a sweep is safe exactly when no open polls the state it frees:
      otherwise, and only then, an honest run follows in which the freed transfer's
      blocks are still in use. */
  lemma SweepIsSafeExactly(st: State, slotCount: nat, tid: Name)
    requires Refs(st) && Enabled(st, Sweep(tid)) && Good(st, slotCount)
    ensures Unsafe(Apply(st, Sweep(tid)), tid) <==> PolledAt(st, tid)
  {
    hide Unsafe, Freed, Base, Good;
    SweepKeepsGood(st, slotCount, tid);
    if st.book.meta[tid] in Polled(st.tasks) {
      var t :| t in st.tasks && st.tasks[t].pc.OpenPolling? && st.tasks[t].pc.send == st.book.meta[tid];
      SweepMakesLate(st, slotCount, tid, t);
      GoodBase(st, slotCount);
      hide Late, Refs;
      StepBase(st, Sweep(tid), slotCount);
      LateIsUnsafe(ApplySweep(st, tid), slotCount, t, st.book.meta[tid], tid);
    } else {
      GoodIsSafe(Apply(st, Sweep(tid)), slotCount, tid);
    }
  }
}
