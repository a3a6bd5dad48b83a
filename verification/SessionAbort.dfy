/** What the helper keeps whatever requests arrive: references stay valid,
    `_operations` indexes exactly the unfinished open and pull handlers, sender
    slots are conserved, and an acknowledged abort is quiescent. */
module SessionAbort {
  import opened Wrappers
  import opened SessionModel

  // ----- Bookkeeping that only closes sessions -----

  ghost predicate SameButPhase(x: Session, y: Session) {
    && x.skey == y.skey && x.nonce == y.nonce && x.send == y.send && x.total == y.total && x.inflight == y.inflight
    && x.completed == y.completed && x.pulled == y.pulled && x.done == y.done
  }

  /** `b'` differs from `b` by phases, counters, and removed index entries. */
  ghost predicate Closing(b: Book, b': Book) {
    && b'.sends.Keys == b.sends.Keys && b'.sessions.Keys == b.sessions.Keys
    && (forall s :: s in b.sends ==> b'.sends[s].tid == b.sends[s].tid)
    && (forall o :: o in b.sessions ==> SameButPhase(b.sessions[o], b'.sessions[o]))
    && (forall k :: k in b'.producers ==> k in b.producers && b'.producers[k] == b.producers[k])
    && (forall tid :: tid in b'.meta ==> tid in b.meta && b'.meta[tid] == b.meta[tid])
  }

  lemma ClosingTrans(b: Book, b1: Book, b2: Book)
    requires Closing(b, b1) && Closing(b1, b2)
    ensures Closing(b, b2)
  {
  }

  lemma FinishCloses(b: Book, s: Ref)
    requires s in b.sends
    ensures Closing(b, FinishSend(b, s))
  {
  }

  lemma PhaseCloses(b: Book, o: Ref, phase: Phase)
    requires o in b.sessions
    ensures Closing(b, SetPhase(b, o, phase))
  {
  }

  lemma DiscardCloses(b: Book, o: Ref)
    requires HasSession(b, o)
    ensures Closing(b, Discard(b, o))
  {
    var b1 := Forget(b, b.sessions[o].skey).(finishes := b.finishes + multiset{o});
    FinishCloses(b1, b.sessions[o].send);
  }

  lemma CompleteCloses(b: Book, o: Ref)
    requires HasSession(b, o)
    ensures Closing(b, CompleteSession(b, o))
  {
    var b1 := Forget(b, b.sessions[o].skey);
    PhaseCloses(b1, o, Complete);
    var b2 := SetPhase(b1, o, Complete).(finishes := b.finishes + multiset{o});
    FinishCloses(b2, b.sessions[o].send);
  }

  lemma SettleCloses(b: Book, o: Ref)
    requires HasSession(b, o)
    ensures Closing(b, Settle(b, o))
  {
    DiscardCloses(b, o);
  }

  lemma CancelCloses(b: Book, o: Ref)
    requires HasSession(b, o)
    ensures Closing(b, CancelSession(b, o))
  {
    PhaseCloses(b, o, Cancelled);
    SettleCloses(SetPhase(b, o, Cancelled), o);
    ClosingTrans(b, SetPhase(b, o, Cancelled), CancelSession(b, o));
  }

  lemma {:induction false} CancelAllCloses(b: Book, order: seq<Ref>)
    requires HasSessions(b, order)
    ensures Closing(b, CancelAll(b, order))
    decreases |order|
  {
    if order != [] {
      var b1 := CancelSession(b, order[0]);
      CancelCloses(b, order[0]);
      assert HasSessions(b1, order[1..]) by {
        forall i | 0 <= i < |order[1..]| ensures HasSession(b1, order[1..][i]) { assert HasSession(b, order[i + 1]); }
      }
      CancelAllCloses(b1, order[1..]);
      ClosingTrans(b, b1, CancelAll(b1, order[1..]));
    }
  }

  lemma ClosingRefs(b: Book, b': Book, next: Ref)
    requires BookRefs(b, next) && Closing(b, b')
    ensures BookRefs(b', next)
  {
  }

  // ----- References -----

  /** Objects keep their identity; new ones may appear. */
  ghost predicate Extends(b: Book, b': Book) {
    && (forall s :: s in b.sends ==> s in b'.sends && b'.sends[s].tid == b.sends[s].tid)
    && (forall o :: o in b.sessions ==>
          o in b'.sessions && b'.sessions[o].skey == b.sessions[o].skey && b'.sessions[o].send == b.sessions[o].send)
  }

  ghost predicate GoodBook(b: Book, b': Book, next: Ref) {
    BookRefs(b', next) && Extends(b, b')
  }

  lemma ClosingGood(b: Book, b': Book, next: Ref)
    requires BookRefs(b, next) && Closing(b, b')
    ensures GoodBook(b, b', next)
  {
    ClosingRefs(b, b', next);
  }

  lemma PutSendGood(b: Book, s: Ref, e: SendState, next: Ref)
    requires BookRefs(b, next) && s in b.sends && e.tid == b.sends[s].tid
    ensures GoodBook(b, PutSend(b, s, e), next)
  {
  }

  lemma NewSendGood(b: Book, e: SendState, next: Ref)
    requires BookRefs(b, next)
    ensures GoodBook(b, PutSend(b.(meta := b.meta[e.tid := next]), next, e), next + 1)
  {
  }

  lemma PutSessionGood(b: Book, o: Ref, x: Session, next: Ref)
    requires BookRefs(b, next) && o in b.sessions && x.skey == b.sessions[o].skey && x.send == b.sessions[o].send
    ensures GoodBook(b, PutSession(b, o, x), next)
  {
  }

  lemma RegisterGood(b: Book, t: Ref, task: Task, s: Ref, total: nat, next: Ref)
    requires BookRefs(b, next) && t < next && s in b.sends && b.sends[s].tid == task.skey.tid
    requires t !in b.sessions
    ensures GoodBook(b, Register(b, t, task, s, total), next)
  {
  }

  lemma GoodTrans(b: Book, b1: Book, b2: Book, n1: Ref, n2: Ref)
    requires GoodBook(b, b1, n1) && GoodBook(b1, b2, n2)
    ensures GoodBook(b, b2, n2)
  {
  }

  lemma AnnounceGood(st: State, tid: Name, preq: Name)
    requires Refs(st)
    ensures GoodBook(st.book, ApplyAnnounce(st, tid, preq).book, ApplyAnnounce(st, tid, preq).next)
  {
    hide GoodBook, TaskRefs;
    var b, b' := st.book, ApplyAnnounce(st, tid, preq).book;
    if tid in b.meta {
      PutSendGood(b, b.meta[tid], b'.sends[b.meta[tid]], st.next);
      assert b.meta[tid := b.meta[tid]] == b.meta;
      SameGood(b, PutSend(b, b.meta[tid], b'.sends[b.meta[tid]]), b', st.next);
    } else {
      var e := SendState(tid, Some(preq), true, Some(st.now + ABORT_TIMEOUT), 0, 0, 0);
      NewSendGood(b, e, st.next);
      SameGood(b, PutSend(b.(meta := b.meta[tid := st.next]), st.next, e), b', st.next + 1);
    }
  }

  /** Announcement history is no reference. */
  lemma SameGood(b: Book, b1: Book, b2: Book, next: Ref)
    requires GoodBook(b, b1, next) && b2 == b1.(announced := b2.announced)
    ensures GoodBook(b, b2, next)
  {
  }

  lemma PublishGood(st: State, tid: Name, preq: Name)
    requires Refs(st)
    ensures GoodBook(st.book, ApplyPublish(st, tid, preq).book, ApplyPublish(st, tid, preq).next)
  {
    var b := st.book;
    if tid in b.meta {
      PutSendGood(b, b.meta[tid], b.sends[b.meta[tid]].(preq := Some(preq)), st.next);
    } else {
      NewSendGood(b, NewSend(tid, Some(preq)), st.next);
    }
  }

  lemma BeginOpenGood(st: State, t: Ref)
    requires Refs(st) && t in st.tasks && st.tasks[t].pc.OpenNew?
    ensures GoodBook(st.book, BeginOpen(st, t).book, BeginOpen(st, t).next)
  {
    NewSendGood(st.book, NewSend(st.tasks[t].skey.tid, None), st.next);
  }

  lemma OpenPollGood(st: State, t: Ref)
    requires Refs(st) && t in st.tasks && st.tasks[t].pc.OpenPolling?
    ensures GoodBook(st.book, ApplyOpenPoll(st, t).book, st.next)
  {
    var b := st.book;
    var s := st.tasks[t].pc.send;
    if b.sends[s].ready {
      var b1 := PutSend(b, s, Claim(b.sends[s], st.tasks[t].pc.ranks));
      PutSendGood(b, s, b1.sends[s], st.next);
      FinishCloses(b1, s);
      ClosingGood(b1, FinishSend(b1, s), st.next);
      GoodTrans(b, b1, FinishSend(b1, s), st.next, st.next);
    } else {
      assert Closing(b, AbandonOpen(b, s, st.tasks[t].pc.created));
      ClosingGood(b, AbandonOpen(b, s, st.tasks[t].pc.created), st.next);
    }
  }

  lemma OpenDoneGood(st: State, t: Ref, ok: bool, total: nat)
    requires Refs(st) && t in st.tasks && st.tasks[t].pc.OpenJob?
    ensures GoodBook(st.book, ApplyOpenDone(st, t, ok, total).book, st.next)
  {
    var b := st.book;
    var task := st.tasks[t];
    if !ok {
      FinishCloses(b, task.pc.send);
      ClosingGood(b, FinishSend(b, task.pc.send), st.next);
    } else {
      var b1 := Register(b, t, task, task.pc.send, total);
      RegisterGood(b, t, task, task.pc.send, total, st.next);
      CompleteCloses(b1, t);
      ClosingGood(b1, CompleteSession(b1, t), st.next);
      GoodTrans(b, b1, CompleteSession(b1, t), st.next, st.next);
    }
  }

  lemma FailGood(b: Book, o: Ref, next: Ref)
    requires BookRefs(b, next) && o in b.sessions
    ensures GoodBook(b, SetPhase(b, o, Failed), next) && GoodBook(b, Settle(SetPhase(b, o, Failed), o), next)
  {
    var b1 := SetPhase(b, o, Failed);
    PhaseCloses(b, o, Failed);
    ClosingGood(b, b1, next);
    SettleCloses(b1, o);
    ClosingTrans(b, b1, Settle(b1, o));
    ClosingGood(b, Settle(b1, o), next);
  }

  lemma UncountGood(b: Book, o: Ref, next: Ref)
    requires BookRefs(b, next) && o in b.sessions
    ensures GoodBook(b, Uncount(b, o), next)
  {
    var x := b.sessions[o].(inflight := b.sessions[o].inflight - 1);
    PutSessionGood(b, o, x, next);
    SettleCloses(PutSession(b, o, x), o);
    ClosingGood(PutSession(b, o, x), Uncount(b, o), next);
    GoodTrans(b, PutSession(b, o, x), Uncount(b, o), next, next);
  }

  lemma EncodeDoneGood(st: State, t: Ref, ok: bool)
    requires Refs(st) && t in st.tasks && st.tasks[t].pc.PullEncoding?
    ensures GoodBook(st.book, ApplyEncodeDone(st, t, ok).book, st.next)
  {
    var b := st.book;
    var PullEncoding(chunk, o, slot) := st.tasks[t].pc;
    if !ok {
      FailGood(b, o, st.next);
    } else {
      var x := CountDone(b.sessions[o], chunk);
      var b1 := PutSession(b, o, x);
      PutSessionGood(b, o, x, st.next);
      var b2 := if Completes(x) then CompleteSession(b1, o) else b1;
      CompleteCloses(b1, o);
      ClosingGood(b1, CompleteSession(b1, o), st.next);
      GoodTrans(b, b1, b2, st.next, st.next);
      UncountGood(b2, o, st.next);
      GoodTrans(b, b2, Uncount(b2, o), st.next, st.next);
    }
  }

  lemma PullStartGood(st: State, t: Ref)
    requires Refs(st) && t in st.tasks && st.tasks[t].pc.PullNew?
    ensures GoodBook(st.book, ApplyPullStart(st, t).book, st.next)
  {
    var skey := st.tasks[t].skey;
    if skey in st.book.producers {
      var o := st.book.producers[skey];
      FailGood(st.book, o, st.next);
      PutSessionGood(st.book, o, CountPull(st.book.sessions[o], st.tasks[t].pc.chunk), st.next);
    }
  }

  lemma AbortStartGood(st: State, t: Ref, target: Option<Ref>)
    requires Refs(st) && t in st.tasks && (target.Some? ==> target.value in st.book.sessions)
    ensures GoodBook(st.book, ApplyAbortStart(st, t, target).book, st.next)
  {
    if target.Some? {
      CancelCloses(st.book, target.value);
      ClosingGood(st.book, CancelSession(st.book, target.value), st.next);
    }
  }

  lemma AbortEndGood(b: Book, key: OpKey, order: seq<Ref>, next: Ref)
    requires BookRefs(b, next) && ValidOrder(b, key, order)
    ensures HasSessions(b, order) && GoodBook(b, CancelAll(b, order), next)
  {
    CancelAllCloses(b, order);
    ClosingGood(b, CancelAll(b, order), next);
  }

  /** Dropping index entries or taking a number keeps the book good. */
  lemma UnindexGood(b: Book, b': Book, next: Ref, next': Ref)
    requires BookRefs(b, next) && next <= next'
    requires b'.sends == b.sends && b'.sessions == b.sessions && b'.producers == b.producers
    requires forall tid :: tid in b'.meta ==> tid in b.meta && b'.meta[tid] == b.meta[tid]
    ensures GoodBook(b, b', next')
  {
  }

  // ----- The invariant -----

  ghost function Counted(tasks: map<Ref, Task>, o: Ref): set<Ref> {
    set t | t in tasks && tasks[t].CountedOn(o)
  }

  /** `_operations` holds exactly the unfinished open and pull handlers of each key. */
  ghost predicate OperationsExact(st: State) {
    && (forall t :: t in st.tasks && !st.tasks[t].IsAbort() ==> t in Indexed(st.operations, st.tasks[t].Key()))
    && (forall k, t :: k in st.operations && t in st.operations[k] ==>
          t in st.tasks && !st.tasks[t].IsAbort() && st.tasks[t].Key() == k)
  }

  ghost predicate ClosedBounded(st: State) {
    forall k :: k in st.closed ==> st.closed[k] <= st.now + PENDING_REQ_EXPIRY
  }

  ghost predicate NoJobs(st: State, key: OpKey) {
    forall u :: u in st.tasks && st.tasks[u].Key() == key ==> !st.tasks[u].HasJob()
  }

  function Expiry(pc: Handler): real
    requires pc.AbortDraining?
  {
    pc.deadline + (PENDING_REQ_EXPIRY - ABORT_TIMEOUT)
  }

  /** Until its entry can expire, a draining abort keeps its key closed and
      every job of that key belongs to a handler it is waiting for. */
  ghost predicate AbortGuard(st: State, t: Ref)
    requires t in st.tasks && st.tasks[t].pc.AbortDraining?
  {
    var key := st.tasks[t].Key();
    st.now < Expiry(st.tasks[t].pc) ==>
      && key in st.closed && st.closed[key] >= Expiry(st.tasks[t].pc)
      && (forall u :: u in st.tasks && st.tasks[u].HasJob() && st.tasks[u].Key() == key ==> u in st.tasks[t].pc.pending)
  }

  ghost predicate AbortsGuarded(st: State) {
    forall t :: t in st.tasks && st.tasks[t].pc.AbortDraining? ==> AbortGuard(st, t)
  }

  ghost predicate HeldBySome(tasks: map<Ref, Task>, slot: nat) {
    exists t :: t in tasks && tasks[t].HoldsSlot() && tasks[t].pc.slot == slot
  }

  /** Free slots and slots held by chunk handlers partition `[0, slotCount)`. */
  ghost predicate SlotsConserved(tasks: map<Ref, Task>, slots: seq<nat>, slotCount: nat) {
    && (forall i, j :: 0 <= i < j < |slots| ==> slots[i] != slots[j])
    && (forall k :: k in slots ==> k < slotCount)
    && (forall t :: t in tasks && tasks[t].HoldsSlot() ==> tasks[t].pc.slot < slotCount && tasks[t].pc.slot !in slots)
    && (forall t, u :: t in tasks && u in tasks && t != u && tasks[t].HoldsSlot() && tasks[u].HoldsSlot() ==>
          tasks[t].pc.slot != tasks[u].pc.slot)
    && (forall k: nat :: k < slotCount ==> k in slots || HeldBySome(tasks, k))
  }

  /** `inflight_chunks` counts the chunk handlers of a session. */
  ghost predicate InflightExact(tasks: map<Ref, Task>, sessions: map<Ref, Session>) {
    forall o :: o in sessions ==> sessions[o].inflight == |Counted(tasks, o)|
  }

  ghost predicate Base(st: State, slotCount: nat) {
    && Refs(st) && OperationsExact(st) && ClosedBounded(st) && AbortsGuarded(st)
    && SlotsConserved(st.tasks, st.slots, slotCount) && InflightExact(st.tasks, st.book.sessions)
  }

  // ----- One handler advances -----

  /** The task map changes at one task, which keeps its keys and its kind. */
  ghost predicate Advances(st: State, st': State, t: Ref) {
    && t in st.tasks && t in st'.tasks && st'.tasks == st.tasks[t := st.tasks[t].(pc := st'.tasks[t].pc)]
    && st'.tasks[t].IsAbort() == st.tasks[t].IsAbort()
    && (st'.tasks[t].IsOpening() ==> st.tasks[t].IsOpening())
    && st'.operations == st.operations && st'.now == st.now
  }

  lemma AdvanceRefs(st: State, st': State, t: Ref)
    requires Refs(st) && Advances(st, st', t) && GoodBook(st.book, st'.book, st'.next) && st.next <= st'.next
    requires TaskRefs(st'.book, st'.tasks[t])
    requires forall o :: o in st'.book.sessions ==> o in st.book.sessions || (o == t && !st'.tasks[t].IsOpening())
    ensures Refs(st')
  {
    forall u | u in st'.tasks ensures u < st'.next && TaskRefs(st'.book, st'.tasks[u]) {
      if u != t {
        assert TaskRefs(st.book, st.tasks[u]);
      }
    }
  }

  lemma AdvanceOperations(st: State, st': State, t: Ref)
    requires OperationsExact(st) && Advances(st, st', t)
    ensures OperationsExact(st')
  {
  }

  ghost predicate ClosesMore(st: State, st': State) {
    forall k :: k in st.closed ==> k in st'.closed && st'.closed[k] >= st.closed[k]
  }

  lemma AdvanceAborts(st: State, st': State, t: Ref)
    requires AbortsGuarded(st) && Advances(st, st', t) && ClosesMore(st, st')
    requires st'.tasks[t].HasJob() ==> st.tasks[t].HasJob() || st.tasks[t].Key() !in st.closed
    requires st'.tasks[t].pc.AbortDraining? ==> AbortGuard(st', t)
    ensures AbortsGuarded(st')
  {
    forall a | a in st'.tasks && st'.tasks[a].pc.AbortDraining? ensures AbortGuard(st', a) {
      if a != t {
        assert AbortGuard(st, a);
      }
    }
  }

  lemma SlotsUnmoved(st: State, st': State, t: Ref, slotCount: nat)
    requires SlotsConserved(st.tasks, st.slots, slotCount) && Advances(st, st', t) && st'.slots == st.slots
    requires st'.tasks[t].HoldsSlot() == st.tasks[t].HoldsSlot()
    requires st.tasks[t].HoldsSlot() ==> st'.tasks[t].pc.slot == st.tasks[t].pc.slot
    ensures SlotsConserved(st'.tasks, st'.slots, slotCount)
  {
    forall k: nat | k < slotCount ensures k in st'.slots || HeldBySome(st'.tasks, k) {
      if k !in st.slots {
        var u :| u in st.tasks && st.tasks[u].HoldsSlot() && st.tasks[u].pc.slot == k;
        assert st'.tasks[u].HoldsSlot() && st'.tasks[u].pc.slot == k;
      }
    }
  }

  lemma SlotTaken(st: State, st': State, t: Ref, slotCount: nat)
    requires SlotsConserved(st.tasks, st.slots, slotCount) && Advances(st, st', t)
    requires st.slots != [] && st'.slots == st.slots[1..]
    requires !st.tasks[t].HoldsSlot() && st'.tasks[t].HoldsSlot() && st'.tasks[t].pc.slot == st.slots[0]
    ensures SlotsConserved(st'.tasks, st'.slots, slotCount)
  {
    assert st.slots == [st.slots[0]] + st'.slots;
    assert st.slots[0] in st.slots && forall k :: k in st'.slots ==> k in st.slots;
    assert st.slots[0] !in st'.slots;
    forall k: nat | k < slotCount ensures k in st'.slots || HeldBySome(st'.tasks, k) {
      if k == st.slots[0] {
        assert st'.tasks[t].HoldsSlot() && st'.tasks[t].pc.slot == k;
      } else if k !in st.slots {
        var u :| u in st.tasks && st.tasks[u].HoldsSlot() && st.tasks[u].pc.slot == k;
        assert st'.tasks[u].HoldsSlot() && st'.tasks[u].pc.slot == k;
      }
    }
  }

  lemma SlotReturned(st: State, st': State, t: Ref, slotCount: nat)
    requires SlotsConserved(st.tasks, st.slots, slotCount) && Advances(st, st', t)
    requires st.tasks[t].HoldsSlot() && !st'.tasks[t].HoldsSlot() && st'.slots == st.slots + [st.tasks[t].pc.slot]
    ensures SlotsConserved(st'.tasks, st'.slots, slotCount)
  {
    forall k: nat | k < slotCount ensures k in st'.slots || HeldBySome(st'.tasks, k) {
      if k !in st.slots && k != st.tasks[t].pc.slot {
        var u :| u in st.tasks && st.tasks[u].HoldsSlot() && st.tasks[u].pc.slot == k;
        assert st'.tasks[u].HoldsSlot() && st'.tasks[u].pc.slot == k;
      }
    }
  }

  ghost function Delta(task: Task, task': Task, o: Ref): int {
    (if task'.CountedOn(o) then 1 else 0) - (if task.CountedOn(o) then 1 else 0)
  }

  lemma CountedDelta(tasks: map<Ref, Task>, t: Ref, task: Task, o: Ref)
    requires t in tasks
    ensures |Counted(tasks[t := task], o)| == |Counted(tasks, o)| + Delta(tasks[t], task, o)
  {
    var c, c' := Counted(tasks, o), Counted(tasks[t := task], o);
    assert c' - {t} == c - {t};
    assert |c| == |c - {t}| + (if t in c then 1 else 0);
    assert |c'| == |c' - {t}| + (if t in c' then 1 else 0);
  }

  /** Session counters move with the handler's own position. */
  ghost predicate InflightFollows(st: State, st': State, t: Ref)
    requires t in st.tasks && t in st'.tasks
  {
    forall o :: o in st'.book.sessions ==>
      if o in st.book.sessions
      then st'.book.sessions[o].inflight == st.book.sessions[o].inflight + Delta(st.tasks[t], st'.tasks[t], o)
      else o == t && !st'.tasks[t].IsOpening() && st'.book.sessions[o].inflight == 0 && Counted(st'.tasks, o) == {}
  }

  lemma AdvanceInflight(st: State, st': State, t: Ref)
    requires InflightExact(st.tasks, st.book.sessions) && Advances(st, st', t)
    requires InflightFollows(st, st', t)
    ensures InflightExact(st'.tasks, st'.book.sessions)
  {
    forall o | o in st'.book.sessions ensures st'.book.sessions[o].inflight == |Counted(st'.tasks, o)| {
      CountedDelta(st.tasks, t, st'.tasks[t], o);
    }
  }

  // ----- Every action keeps the invariant -----

  lemma EngineBase(st: State, a: Action, slotCount: nat)
    requires Base(st, slotCount) && Enabled(st, a) && (a.Announce? || a.Publish? || a.Drop? || a.Sweep?)
    ensures Base(Apply(st, a), slotCount)
  {
    var st' := Apply(st, a);
    match a {
      case Announce(tid, preq) => AnnounceGood(st, tid, preq);
      case Publish(tid, preq) => PublishGood(st, tid, preq);
      case _ => UnindexGood(st.book, st'.book, st.next, st.next);
    }
    BookOnlyBase(st, st', slotCount);
  }

  lemma BookOnlyBase(st: State, st': State, slotCount: nat)
    requires Base(st, slotCount) && st.next <= st'.next && GoodBook(st.book, st'.book, st'.next)
    requires st' == st.(book := st'.book, next := st'.next) && st'.book.sessions == st.book.sessions
    ensures Base(st', slotCount)
  {
    forall u | u in st'.tasks ensures u < st'.next && TaskRefs(st'.book, st'.tasks[u]) {
      assert TaskRefs(st.book, st.tasks[u]);
    }
    forall a | a in st'.tasks && st'.tasks[a].pc.AbortDraining? ensures AbortGuard(st', a) {
      assert AbortGuard(st, a);
    }
  }

  lemma TickBase(st: State, a: Action, slotCount: nat)
    requires Base(st, slotCount) && a.Tick? && Enabled(st, a)
    ensures Base(Apply(st, a), slotCount)
  {
    var st' := Apply(st, a);
    forall t | t in st'.tasks && st'.tasks[t].pc.AbortDraining? ensures AbortGuard(st', t) {
      assert AbortGuard(st, t);
    }
  }

  /** What an action of one handler must show to keep the invariant. */
  ghost predicate ControlSound(st: State, st': State, t: Ref) {
    && Advances(st, st', t)
    && ClosesMore(st, st') && ClosedBounded(st')
    && (st'.tasks[t].HasJob() ==> st.tasks[t].HasJob() || st.tasks[t].Key() !in st.closed)
    && (st'.tasks[t].pc.AbortDraining? ==> AbortGuard(st', t))
  }

  ghost predicate BookSound(st: State, st': State, t: Ref)
    requires t in st.tasks && t in st'.tasks
  {
    && GoodBook(st.book, st'.book, st'.next) && st.next <= st'.next
    && TaskRefs(st'.book, st'.tasks[t])
    && InflightFollows(st, st', t)
  }

  lemma SoundBase(st: State, st': State, t: Ref, slotCount: nat)
    requires Base(st, slotCount) && ControlSound(st, st', t) && BookSound(st, st', t)
    requires SlotsConserved(st'.tasks, st'.slots, slotCount)
    ensures Base(st', slotCount)
  {
    hide SlotsConserved, OperationsExact, AbortsGuarded, GoodBook;
    AdvanceRefs(st, st', t);
    AdvanceOperations(st, st', t);
    AdvanceAborts(st, st', t);
    AdvanceInflight(st, st', t);
  }

  /** Sessions keep their counters, and the handler counts on the same session or none. */
  lemma InflightStill(st: State, st': State, t: Ref)
    requires t in st.tasks && t in st'.tasks
    requires st'.book.sessions.Keys == st.book.sessions.Keys
    requires forall o :: o in st.book.sessions ==> st'.book.sessions[o].inflight == st.book.sessions[o].inflight
    requires forall o :: st'.tasks[t].CountedOn(o) == st.tasks[t].CountedOn(o)
    ensures InflightFollows(st, st', t)
  {
  }

  lemma BeginOpenBase(st: State, t: Ref, slotCount: nat)
    requires Base(st, slotCount) && t in st.tasks && st.tasks[t].pc.OpenNew?
    ensures Base(BeginOpen(st, t), slotCount)
  {
    hide SlotsConserved, OperationsExact, AbortsGuarded, GoodBook, InflightExact;
    var st' := BeginOpen(st, t);
    BeginOpenGood(st, t);
    SlotsUnmoved(st, st', t, slotCount);
    InflightStill(st, st', t);
    SoundBase(st, st', t, slotCount);
  }

  lemma BeginOpenRefs(st: State, t: Ref)
    requires Refs(st) && t in st.tasks && st.tasks[t].pc.OpenNew?
    ensures Refs(BeginOpen(st, t))
    ensures BeginOpen(st, t).tasks == st.tasks[t := st.tasks[t].(pc := BeginOpen(st, t).tasks[t].pc)]
    ensures BeginOpen(st, t).tasks[t].pc.OpenPolling? && BeginOpen(st, t).tasks[t].pc.ranks == st.tasks[t].pc.ranks
  {
    var st' := BeginOpen(st, t);
    BeginOpenGood(st, t);
    assert Advances(st, st', t) && TaskRefs(st'.book, st'.tasks[t]);
    hide GoodBook, Refs, Advances;
    AdvanceRefs(st, st', t);
  }

  lemma OpenStartBase(st: State, t: Ref, slotCount: nat)
    requires Base(st, slotCount) && t in st.tasks && st.tasks[t].pc.OpenNew?
    ensures Base(ApplyOpenStart(st, t), slotCount)
  {
    BeginOpenBase(st, t, slotCount);
    hide Base, ApplyOpenPoll;
    OpenPollBase(BeginOpen(st, t), t, slotCount);
  }

  lemma OpenPollControl(st: State, t: Ref)
    requires Refs(st) && ClosedBounded(st) && t in st.tasks && st.tasks[t].pc.OpenPolling?
    ensures ControlSound(st, ApplyOpenPoll(st, t), t)
  {
    hide PutSend, FinishSend, AbandonOpen, Claim;
  }

  lemma OpenPollBook(st: State, t: Ref)
    requires Refs(st) && t in st.tasks && st.tasks[t].pc.OpenPolling?
    ensures BookSound(st, ApplyOpenPoll(st, t), t)
  {
    hide GoodBook, BookRefs, InflightFollows;
    OpenPollGood(st, t);
    InflightStill(st, ApplyOpenPoll(st, t), t);
  }

  lemma OpenPollBase(st: State, t: Ref, slotCount: nat)
    requires Base(st, slotCount) && t in st.tasks && st.tasks[t].pc.OpenPolling?
    ensures Base(ApplyOpenPoll(st, t), slotCount)
  {
    hide SlotsConserved, OperationsExact, AbortsGuarded, BookSound, InflightExact, FinishSend, AbandonOpen;
    OpenPollControl(st, t);
    OpenPollBook(st, t);
    SlotsUnmoved(st, ApplyOpenPoll(st, t), t, slotCount);
    SoundBase(st, ApplyOpenPoll(st, t), t, slotCount);
  }

  lemma OpenDoneControl(st: State, t: Ref, ok: bool, total: nat)
    requires Refs(st) && ClosedBounded(st) && t in st.tasks && st.tasks[t].pc.OpenJob?
    ensures ControlSound(st, ApplyOpenDone(st, t, ok, total), t)
  {
    hide FinishSend, CompleteSession;
  }

  lemma Uncounted(st: State, t: Ref, pc: Handler)
    requires Refs(st) && t in st.tasks && t !in st.book.sessions && !Task(st.tasks[t].skey, st.tasks[t].nonce, pc).CountedOn(t)
    ensures Counted(SetPc(st, t, pc).tasks, t) == {}
  {
    var tasks := SetPc(st, t, pc).tasks;
    forall u | u in tasks ensures !tasks[u].CountedOn(t) {
      assert TaskRefs(st.book, st.tasks[u]);
    }
  }

  lemma InflightNew(st: State, st': State, t: Ref, b: Book)
    requires t in st.tasks && t in st'.tasks && t !in st.book.sessions && Counted(st'.tasks, t) == {}
    requires st'.tasks[t].pc.Responding? && st.tasks[t].pc.OpenJob?
    requires b.sessions.Keys == st.book.sessions.Keys + {t} && b.sessions[t].inflight == 0 && Closing(b, st'.book)
    requires forall o :: o in st.book.sessions ==> b.sessions[o] == st.book.sessions[o]
    ensures InflightFollows(st, st', t)
  {
    forall o | o in st'.book.sessions ensures o in b.sessions && st'.book.sessions[o].inflight == b.sessions[o].inflight {
      assert SameButPhase(b.sessions[o], st'.book.sessions[o]);
    }
  }

  lemma OpenDoneInflight(st: State, t: Ref, ok: bool, total: nat)
    requires Refs(st) && t in st.tasks && st.tasks[t].pc.OpenJob?
    ensures InflightFollows(st, ApplyOpenDone(st, t, ok, total), t)
  {
    hide CompleteSession, BookRefs, InflightFollows;
    var st' := ApplyOpenDone(st, t, ok, total);
    if ok {
      Uncounted(st, t, Responding);
      var b := Register(st.book, t, st.tasks[t], st.tasks[t].pc.send, total);
      CompleteCloses(b, t);
      hide Refs;
      assert Closing(b, st'.book);
      InflightNew(st, st', t, b);
    } else {
      InflightStill(st, st', t);
    }
  }

  lemma OpenDoneBook(st: State, t: Ref, ok: bool, total: nat)
    requires Refs(st) && t in st.tasks && st.tasks[t].pc.OpenJob?
    ensures BookSound(st, ApplyOpenDone(st, t, ok, total), t)
  {
    hide GoodBook, BookRefs, CompleteSession, FinishSend, InflightFollows;
    OpenDoneGood(st, t, ok, total);
    OpenDoneInflight(st, t, ok, total);
  }

  lemma OpenDoneBase(st: State, t: Ref, ok: bool, total: nat, slotCount: nat)
    requires Base(st, slotCount) && t in st.tasks && st.tasks[t].pc.OpenJob?
    ensures Base(ApplyOpenDone(st, t, ok, total), slotCount)
  {
    hide SlotsConserved, OperationsExact, AbortsGuarded, BookSound, InflightExact, FinishSend, CompleteSession;
    OpenDoneControl(st, t, ok, total);
    OpenDoneBook(st, t, ok, total);
    SlotsUnmoved(st, ApplyOpenDone(st, t, ok, total), t, slotCount);
    SoundBase(st, ApplyOpenDone(st, t, ok, total), t, slotCount);
  }

  lemma PullStartControl(st: State, t: Ref)
    requires Refs(st) && ClosedBounded(st) && t in st.tasks && st.tasks[t].pc.PullNew?
    ensures ControlSound(st, ApplyPullStart(st, t), t)
  {
    hide Settle, SetPhase, PutSession, CountPull;
  }

  /** One session's counter moves by the handler's own count. */
  lemma InflightOne(st: State, st': State, t: Ref, o: Ref, b: Book)
    requires t in st.tasks && t in st'.tasks && o in st.book.sessions && Closing(b, st'.book)
    requires b.sessions.Keys == st.book.sessions.Keys
    requires b.sessions[o].inflight == st.book.sessions[o].inflight + Delta(st.tasks[t], st'.tasks[t], o)
    requires forall p :: p in st.book.sessions && p != o ==> b.sessions[p].inflight == st.book.sessions[p].inflight
    requires forall p :: p != o ==> !st.tasks[t].CountedOn(p) && !st'.tasks[t].CountedOn(p)
    ensures InflightFollows(st, st', t)
  {
    forall p | p in st'.book.sessions ensures p in b.sessions && st'.book.sessions[p].inflight == b.sessions[p].inflight {
      assert SameButPhase(b.sessions[p], st'.book.sessions[p]);
    }
  }

  lemma ClosingRefl(b: Book)
    ensures Closing(b, b)
  {
  }

  lemma PullStartInflight(st: State, t: Ref)
    requires Refs(st) && t in st.tasks && st.tasks[t].pc.PullNew?
    ensures InflightFollows(st, ApplyPullStart(st, t), t)
  {
    var st' := ApplyPullStart(st, t);
    var skey := st.tasks[t].skey;
    if skey !in st.book.producers {
      InflightStill(st, st', t);
    } else {
      var o := st.book.producers[skey];
      var b := SetPhase(st.book, o, Failed);
      SettleCloses(b, o);
      ClosingRefl(st'.book);
      hide Refs, BookRefs, Settle, Closing;
      InflightOne(st, st', t, o, if st.book.sessions[o].phase != Active then b else st'.book);
    }
  }

  lemma PullStartBook(st: State, t: Ref)
    requires Refs(st) && t in st.tasks && st.tasks[t].pc.PullNew?
    ensures BookSound(st, ApplyPullStart(st, t), t)
  {
    PullStartGood(st, t);
    PullStartInflight(st, t);
    hide GoodBook, InflightFollows, Settle;
  }

  lemma PullStartBase(st: State, t: Ref, slotCount: nat)
    requires Base(st, slotCount) && t in st.tasks && st.tasks[t].pc.PullNew?
    ensures Base(ApplyPullStart(st, t), slotCount)
  {
    hide SlotsConserved, OperationsExact, AbortsGuarded, BookSound, InflightExact, Settle;
    PullStartControl(st, t);
    PullStartBook(st, t);
    SlotsUnmoved(st, ApplyPullStart(st, t), t, slotCount);
    SoundBase(st, ApplyPullStart(st, t), t, slotCount);
  }

  lemma PullSlotControl(st: State, t: Ref)
    requires Refs(st) && ClosedBounded(st) && t in st.tasks && st.tasks[t].pc.PullWaiting? && st.slots != []
    ensures ControlSound(st, ApplyPullSlot(st, t), t)
  {
    hide SetPhase, PutSession;
  }

  lemma PullSlotBook(st: State, t: Ref)
    requires Refs(st) && t in st.tasks && st.tasks[t].pc.PullWaiting? && st.slots != []
    ensures BookSound(st, ApplyPullSlot(st, t), t)
  {
    hide GoodBook, BookRefs, InflightFollows, Settle;
    FailGood(st.book, st.tasks[t].pc.session, st.next);
    UnindexGood(st.book, st.book, st.next, st.next);
    InflightStill(st, ApplyPullSlot(st, t), t);
  }

  lemma PullSlotBase(st: State, t: Ref, slotCount: nat)
    requires Base(st, slotCount) && t in st.tasks && st.tasks[t].pc.PullWaiting? && st.slots != []
    ensures Base(ApplyPullSlot(st, t), slotCount)
  {
    hide SlotsConserved, OperationsExact, AbortsGuarded, BookSound, InflightExact, SetPhase;
    PullSlotControl(st, t);
    PullSlotBook(st, t);
    SlotTaken(st, ApplyPullSlot(st, t), t, slotCount);
    SoundBase(st, ApplyPullSlot(st, t), t, slotCount);
  }

  lemma EncodeDoneControl(st: State, t: Ref, ok: bool)
    requires Refs(st) && ClosedBounded(st) && t in st.tasks && st.tasks[t].pc.PullEncoding?
    ensures ControlSound(st, ApplyEncodeDone(st, t, ok), t)
  {
    hide Uncount, CompleteSession, SetPhase, PutSession;
  }

  lemma UncountInflight(st: State, st': State, t: Ref, o: Ref, b: Book)
    requires t in st.tasks && t in st'.tasks && o in st.book.sessions && HasSession(b, o) && st'.book == Uncount(b, o)
    requires st.tasks[t].CountedOn(o) && st'.tasks[t].pc.Responding?
    requires b.sessions.Keys == st.book.sessions.Keys
    requires forall p :: p in st.book.sessions ==> b.sessions[p].inflight == st.book.sessions[p].inflight
    ensures InflightFollows(st, st', t)
  {
    hide Settle, Closing, InflightFollows;
    var b1 := PutSession(b, o, b.sessions[o].(inflight := b.sessions[o].inflight - 1));
    SettleCloses(b1, o);
    InflightOne(st, st', t, o, b1);
  }

  lemma EncodeDoneInflight(st: State, t: Ref, ok: bool)
    requires Refs(st) && t in st.tasks && st.tasks[t].pc.PullEncoding?
    ensures InflightFollows(st, ApplyEncodeDone(st, t, ok), t)
  {
    var st' := ApplyEncodeDone(st, t, ok);
    var PullEncoding(chunk, o, slot) := st.tasks[t].pc;
    if !ok {
      InflightStill(st, st', t);
    } else {
      var x := CountDone(st.book.sessions[o], chunk);
      var b1 := PutSession(st.book, o, x);
      CompleteCloses(b1, o);
      ClosingRefl(b1);
      var b2 := if Completes(x) then CompleteSession(b1, o) else b1;
      assert HasSession(b2, o);
      hide Refs, BookRefs, CompleteSession, Uncount;
      forall p | p in st.book.sessions ensures b2.sessions[p].inflight == st.book.sessions[p].inflight {
        assert SameButPhase(b1.sessions[p], b2.sessions[p]);
      }
      UncountInflight(st, st', t, o, b2);
    }
  }

  lemma EncodeDoneBook(st: State, t: Ref, ok: bool)
    requires Refs(st) && t in st.tasks && st.tasks[t].pc.PullEncoding?
    ensures BookSound(st, ApplyEncodeDone(st, t, ok), t)
  {
    hide GoodBook, InflightFollows, Uncount, CompleteSession, BookRefs;
    EncodeDoneGood(st, t, ok);
    EncodeDoneInflight(st, t, ok);
  }

  lemma EncodeDoneBase(st: State, t: Ref, ok: bool, slotCount: nat)
    requires Base(st, slotCount) && t in st.tasks && st.tasks[t].pc.PullEncoding?
    ensures Base(ApplyEncodeDone(st, t, ok), slotCount)
  {
    hide SlotsConserved, OperationsExact, AbortsGuarded, BookSound, InflightExact, Uncount, CompleteSession;
    var st' := ApplyEncodeDone(st, t, ok);
    EncodeDoneControl(st, t, ok);
    EncodeDoneBook(st, t, ok);
    if ok { SlotReturned(st, st', t, slotCount); } else { SlotsUnmoved(st, st', t, slotCount); }
    SoundBase(st, st', t, slotCount);
  }

  lemma DrainDoneBase(st: State, t: Ref, slotCount: nat)
    requires Base(st, slotCount) && t in st.tasks && st.tasks[t].pc.PullDraining?
    ensures Base(ApplyDrainDone(st, t), slotCount)
  {
    hide SlotsConserved, OperationsExact, AbortsGuarded, InflightExact, GoodBook, Uncount;
    var st' := ApplyDrainDone(st, t);
    var o := st.tasks[t].pc.session;
    UncountGood(st.book, o, st.next);
    UncountInflight(st, st', t, o, st.book);
    SlotReturned(st, st', t, slotCount);
    SoundBase(st, st', t, slotCount);
  }

  lemma AbortStartControl(st: State, t: Ref, target: Option<Ref>)
    requires Refs(st) && OperationsExact(st) && ClosedBounded(st) && t in st.tasks && st.tasks[t].pc.AbortNew?
    requires target.Some? ==> target.value in st.book.sessions
    ensures ControlSound(st, ApplyAbortStart(st, t, target), t)
  {
    hide CancelSession;
    var st' := ApplyAbortStart(st, t, target);
    forall u | u in st'.tasks && st'.tasks[u].HasJob() && st'.tasks[u].Key() == st.tasks[t].Key()
      ensures u in st'.tasks[t].pc.pending
    {
      assert u != t && st.tasks[u] == st'.tasks[u];
    }
  }

  lemma AbortStartBook(st: State, t: Ref, target: Option<Ref>)
    requires Refs(st) && t in st.tasks && st.tasks[t].pc.AbortNew?
    requires target.Some? ==> target.value in st.book.sessions
    ensures BookSound(st, ApplyAbortStart(st, t, target), t)
  {
    var st' := ApplyAbortStart(st, t, target);
    AbortStartGood(st, t, target);
    if target.Some? { CancelCloses(st.book, target.value); }
    ClosingRefl(st.book);
    hide CancelSession, GoodBook, BookRefs;
    forall o | o in st.book.sessions ensures st'.book.sessions[o].inflight == st.book.sessions[o].inflight {
      assert SameButPhase(st.book.sessions[o], st'.book.sessions[o]);
    }
    InflightStill(st, st', t);
  }

  lemma AbortStartBase(st: State, t: Ref, target: Option<Ref>, slotCount: nat)
    requires Base(st, slotCount) && t in st.tasks && st.tasks[t].pc.AbortNew? && ValidTarget(st.book, st.tasks[t], target)
    ensures Base(ApplyAbortStart(st, t, target), slotCount)
  {
    hide SlotsConserved, OperationsExact, AbortsGuarded, BookSound, InflightExact, CancelSession;
    AbortStartControl(st, t, target);
    AbortStartBook(st, t, target);
    SlotsUnmoved(st, ApplyAbortStart(st, t, target), t, slotCount);
    SoundBase(st, ApplyAbortStart(st, t, target), t, slotCount);
  }

  lemma AbortEndBook(st: State, t: Ref, order: seq<Ref>, clean: bool)
    requires Refs(st) && t in st.tasks && st.tasks[t].pc.AbortDraining? && ValidOrder(st.book, st.tasks[t].Key(), order)
    ensures HasSessions(st.book, order) && BookSound(st, ApplyAbortEnd(st, t, order, clean), t)
  {
    AbortEndGood(st.book, st.tasks[t].Key(), order, st.next);
    CancelAllCloses(st.book, order);
    var st' := ApplyAbortEnd(st, t, order, clean);
    hide CancelAll, GoodBook, BookRefs;
    forall o | o in st.book.sessions ensures st'.book.sessions[o].inflight == st.book.sessions[o].inflight {
      assert SameButPhase(st.book.sessions[o], st'.book.sessions[o]);
    }
    InflightStill(st, st', t);
  }

  lemma AbortEndBase(st: State, t: Ref, order: seq<Ref>, clean: bool, slotCount: nat)
    requires Base(st, slotCount) && t in st.tasks && st.tasks[t].pc.AbortDraining? && ValidOrder(st.book, st.tasks[t].Key(), order)
    ensures HasSessions(st.book, order) && Base(ApplyAbortEnd(st, t, order, clean), slotCount)
  {
    hide SlotsConserved, OperationsExact, AbortsGuarded, BookSound, InflightExact, CancelAll;
    AbortEndBook(st, t, order, clean);
    SlotsUnmoved(st, ApplyAbortEnd(st, t, order, clean), t, slotCount);
    SoundBase(st, ApplyAbortEnd(st, t, order, clean), t, slotCount);
  }

  // ----- Handlers come and go -----

  lemma SlotsSameHolders(tasks: map<Ref, Task>, tasks': map<Ref, Task>, slots: seq<nat>, slotCount: nat)
    requires SlotsConserved(tasks, slots, slotCount)
    requires forall t :: t in tasks' && tasks'[t].HoldsSlot() ==> t in tasks && tasks[t] == tasks'[t]
    requires forall t :: t in tasks && tasks[t].HoldsSlot() ==> t in tasks' && tasks'[t] == tasks[t]
    ensures SlotsConserved(tasks', slots, slotCount)
  {
    forall k: nat | k < slotCount ensures k in slots || HeldBySome(tasks', k) {
      if k !in slots {
        var u :| u in tasks && tasks[u].HoldsSlot() && tasks[u].pc.slot == k;
        assert tasks'[u].HoldsSlot();
      }
    }
  }

  lemma InflightSameCounts(tasks: map<Ref, Task>, tasks': map<Ref, Task>, sessions: map<Ref, Session>)
    requires InflightExact(tasks, sessions)
    requires forall t :: t in tasks' && t !in tasks ==> forall o :: !tasks'[t].CountedOn(o)
    requires forall t :: t in tasks && t !in tasks' ==> forall o :: !tasks[t].CountedOn(o)
    requires forall t :: t in tasks && t in tasks' ==> tasks[t] == tasks'[t]
    ensures InflightExact(tasks', sessions)
  {
    forall o | o in sessions ensures Counted(tasks', o) == Counted(tasks, o) {
    }
  }

  lemma DispatchRefs(st: State, skey: SessionKey, nonce: Name, request: Request)
    requires Refs(st)
    ensures Refs(ApplyDispatch(st, skey, nonce, request))
  {
    var st' := ApplyDispatch(st, skey, nonce, request);
    UnindexGood(st.book, st.book, st.next, st.next + 1);
    forall t | t in st'.tasks ensures t < st'.next && TaskRefs(st'.book, st'.tasks[t]) {
      if t in st.tasks { assert TaskRefs(st.book, st.tasks[t]); }
    }
  }

  lemma DispatchAborts(st: State, skey: SessionKey, nonce: Name, request: Request)
    requires Refs(st) && AbortsGuarded(st)
    ensures AbortsGuarded(ApplyDispatch(st, skey, nonce, request))
  {
    var st' := ApplyDispatch(st, skey, nonce, request);
    forall t | t in st'.tasks && st'.tasks[t].pc.AbortDraining? ensures AbortGuard(st', t) {
      assert t in st.tasks && AbortGuard(st, t);
    }
  }

  lemma DispatchOperations(st: State, skey: SessionKey, nonce: Name, request: Request)
    requires Refs(st) && OperationsExact(st)
    ensures OperationsExact(ApplyDispatch(st, skey, nonce, request))
  {
    hide BookRefs, TaskRefs;
    assert st.next !in st.tasks;
    var st' := ApplyDispatch(st, skey, nonce, request);
    forall t | t in st'.tasks && !st'.tasks[t].IsAbort() ensures t in Indexed(st'.operations, st'.tasks[t].Key()) {
      if t in st.tasks {
        assert t != st.next && t in Indexed(st.operations, st.tasks[t].Key());
      }
    }
    forall k, t | k in st'.operations && t in st'.operations[k]
      ensures t in st'.tasks && !st'.tasks[t].IsAbort() && st'.tasks[t].Key() == k
    {
      assert !(k in st.operations && st.next in st.operations[k]);
      if t != st.next {
        assert k in st.operations && t in st.operations[k] && t in st.tasks && st'.tasks[t] == st.tasks[t];
      }
    }
  }

  lemma DispatchBase(st: State, skey: SessionKey, nonce: Name, request: Request, slotCount: nat)
    requires Base(st, slotCount)
    ensures Base(ApplyDispatch(st, skey, nonce, request), slotCount)
  {
    hide SlotsConserved, OperationsExact, AbortsGuarded, InflightExact;
    var st' := ApplyDispatch(st, skey, nonce, request);
    assert st.next !in st.tasks;
    DispatchRefs(st, skey, nonce, request);
    DispatchAborts(st, skey, nonce, request);
    DispatchOperations(st, skey, nonce, request);
    hide Refs;
    SlotsSameHolders(st.tasks, st'.tasks, st.slots, slotCount);
    InflightSameCounts(st.tasks, st'.tasks, st.book.sessions);
  }

  lemma RespondOperations(st: State, t: Ref)
    requires OperationsExact(st) && t in st.tasks
    ensures OperationsExact(ApplyRespond(st, t))
  {
  }

  lemma RespondBase(st: State, t: Ref, slotCount: nat)
    requires Base(st, slotCount) && t in st.tasks && (st.tasks[t].pc.Responding? || st.tasks[t].pc.AbortAcked?)
    ensures Base(ApplyRespond(st, t), slotCount)
  {
    hide SlotsConserved, OperationsExact, InflightExact;
    var st' := ApplyRespond(st, t);
    RespondOperations(st, t);
    SlotsSameHolders(st.tasks, st'.tasks, st.slots, slotCount);
    InflightSameCounts(st.tasks, st'.tasks, st.book.sessions);
    forall a | a in st'.tasks && st'.tasks[a].pc.AbortDraining? ensures AbortGuard(st', a) {
      assert AbortGuard(st, a);
    }
  }

  lemma StepBase(st: State, a: Action, slotCount: nat)
    requires Base(st, slotCount) && Enabled(st, a)
    ensures Base(Apply(st, a), slotCount)
  {
    hide SlotsConserved, OperationsExact, AbortsGuarded, InflightExact, ClosedBounded, BookRefs, Base;
    match a
    case Tick(_) => TickBase(st, a, slotCount);
    case Announce(_, _) => EngineBase(st, a, slotCount);
    case Publish(_, _) => EngineBase(st, a, slotCount);
    case Drop(_) => EngineBase(st, a, slotCount);
    case Sweep(_) => EngineBase(st, a, slotCount);
    case Dispatch(skey, nonce, request) => DispatchBase(st, skey, nonce, request, slotCount);
    case OpenStart(t) => OpenStartBase(st, t, slotCount);
    case OpenPoll(t) => OpenPollBase(st, t, slotCount);
    case OpenDone(t, ok, total) => OpenDoneBase(st, t, ok, total, slotCount);
    case PullStart(t) => PullStartBase(st, t, slotCount);
    case PullSlot(t) => PullSlotBase(st, t, slotCount);
    case EncodeDone(t, ok) => EncodeDoneBase(st, t, ok, slotCount);
    case DrainDone(t) => DrainDoneBase(st, t, slotCount);
    case AbortStart(t, target) => AbortStartBase(st, t, target, slotCount);
    case AbortDrained(t, order) => AbortEndBase(st, t, order, true, slotCount);
    case AbortTimedOut(t, order) => AbortEndBase(st, t, order, false, slotCount);
    case Respond(t) => RespondBase(st, t, slotCount);
  }

  // ----- Runs -----

  /** A finite run of the helper: `states[i + 1]` is `states[i]` after `acts[i]`. */
  ghost predicate IsRun(states: seq<State>, acts: seq<Action>, slotCount: nat) {
    && |states| == |acts| + 1 && states[0] == Init(slotCount)
    && (forall i :: 0 <= i < |acts| ==> Refs(states[i]) && Enabled(states[i], acts[i]) && states[i + 1] == Apply(states[i], acts[i]))
  }

  lemma InitBase(slotCount: nat)
    ensures Base(Init(slotCount), slotCount)
  {
    var slots := Init(slotCount).slots;
    forall k: nat | k < slotCount ensures k in slots { assert slots[k] == k; }
  }

  lemma {:induction false} RunBase(states: seq<State>, acts: seq<Action>, slotCount: nat, i: nat)
    requires IsRun(states, acts, slotCount) && i < |states|
    ensures Base(states[i], slotCount)
  {
    hide Base, Refs, Enabled, Apply;
    if i == 0 {
      InitBase(slotCount);
    } else {
      RunBase(states, acts, slotCount, i - 1);
      StepBase(states[i - 1], acts[i - 1], slotCount);
    }
  }

  lemma BaseRefs(st: State, slotCount: nat)
    requires Base(st, slotCount)
    ensures Refs(st)
  {
  }

  /** Well-formed references restrict no run: they hold in every run's last state, so any
      enabled action extends it. */
  lemma RunExtends(states: seq<State>, acts: seq<Action>, slotCount: nat, a: Action)
    requires IsRun(states, acts, slotCount)
    ensures Refs(states[|acts|])
    ensures Enabled(states[|acts|], a) ==> IsRun(states + [Apply(states[|acts|], a)], acts + [a], slotCount)
  {
    hide Base, Refs, Enabled, Apply;
    RunBase(states, acts, slotCount, |acts|);
    BaseRefs(states[|acts|], slotCount);
    if Enabled(states[|acts|], a) {
      var states', acts' := states + [Apply(states[|acts|], a)], acts + [a];
      forall i | 0 <= i < |acts'| ensures Refs(states'[i]) && Enabled(states'[i], acts'[i]) && states'[i + 1] == Apply(states'[i], acts'[i]) {
        if i < |acts| { assert Refs(states[i]) && Enabled(states[i], acts[i]); }
      }
    }
  }

  /** In every reachable state the free sender slots and the slots held by chunk
      handlers are exactly the initial slots, each once. */
  lemma SlotConservation(states: seq<State>, acts: seq<Action>, slotCount: nat, i: nat)
    requires IsRun(states, acts, slotCount) && i < |states|
    ensures SlotsConserved(states[i].tasks, states[i].slots, slotCount)
  {
    RunBase(states, acts, slotCount, i);
  }

  /** One handler moves on, and submits a job only while its key is not closed. */
  ghost predicate Moves(st: State, tasks': map<Ref, Task>, t: Ref) {
    && t in st.tasks && t in tasks' && tasks' == st.tasks[t := st.tasks[t].(pc := tasks'[t].pc)]
    && (tasks'[t].HasJob() ==> st.tasks[t].HasJob() || st.tasks[t].Key() !in st.closed)
    && (tasks'[t].pc.OpenPolling? ==>
          (st.tasks[t].pc.OpenNew? || st.tasks[t].pc.OpenPolling?) && tasks'[t].pc.ranks == st.tasks[t].pc.ranks)
    && (tasks'[t].pc.AbortDraining? ==> st.tasks[t].pc.AbortNew?)
    && !tasks'[t].pc.OpenNew? && !tasks'[t].pc.AbortNew?
  }

  ghost predicate TasksFollow(st: State, a: Action, tasks': map<Ref, Task>) {
    match a
    case Tick(_) => tasks' == st.tasks
    case Announce(_, _) => tasks' == st.tasks
    case Publish(_, _) => tasks' == st.tasks
    case Drop(_) => tasks' == st.tasks
    case Sweep(_) => tasks' == st.tasks
    case Dispatch(skey, nonce, request) => tasks' == st.tasks[st.next := NewTask(skey, nonce, request)]
    case Respond(t) => tasks' == st.tasks - {t}
    case _ => Moves(st, tasks', a.t)
  }

  lemma PullTasks(st: State, a: Action)
    requires Refs(st) && Enabled(st, a) && (a.PullStart? || a.PullSlot? || a.EncodeDone? || a.DrainDone?)
    ensures TasksFollow(st, a, Apply(st, a).tasks)
  {
    hide BookRefs, TaskRefs, Uncount, CompleteSession, Settle, PutSession, SetPhase;
    if a.PullStart? { PullStartTasks(st, a.t); }
  }

  lemma PullStartTasks(st: State, t: Ref)
    requires Refs(st) && Enabled(st, PullStart(t))
    ensures TasksFollow(st, PullStart(t), Apply(st, PullStart(t)).tasks)
  {
    hide BookRefs, TaskRefs, Settle, PutSession, SetPhase;
  }

  lemma OpenTasks(st: State, a: Action)
    requires Refs(st) && Enabled(st, a) && (a.OpenStart? || a.OpenPoll? || a.OpenDone?)
    ensures TasksFollow(st, a, Apply(st, a).tasks)
  {
    hide BookRefs, TaskRefs, CompleteSession, FinishSend, AbandonOpen, PutSend, Register, Claim;
    if a.OpenPoll? { PollTasks(st, a.t); } else if a.OpenStart? { StartTasks(st, a.t); }
  }

  lemma StartTasks(st: State, t: Ref)
    requires Refs(st) && Enabled(st, OpenStart(t))
    ensures TasksFollow(st, OpenStart(t), Apply(st, OpenStart(t)).tasks)
  {
    BeginOpenRefs(st, t);
    var st1 := BeginOpen(st, t);
    PollTasks(st1, t);
    assert st1.closed == st.closed;
    hide Refs, ApplyOpenPoll, BeginOpen;
  }

  lemma PollTasks(st: State, t: Ref)
    requires Refs(st) && Enabled(st, OpenPoll(t))
    ensures TasksFollow(st, OpenPoll(t), Apply(st, OpenPoll(t)).tasks)
  {
    hide BookRefs, FinishSend, AbandonOpen, PutSend, Claim;
  }

  lemma OtherTasks(st: State, a: Action)
    requires Refs(st) && Enabled(st, a)
    requires !a.PullStart? && !a.PullSlot? && !a.EncodeDone? && !a.DrainDone? && !a.OpenStart? && !a.OpenPoll? && !a.OpenDone?
    ensures TasksFollow(st, a, Apply(st, a).tasks)
  {
    hide BookRefs, TaskRefs, CancelAll, CancelSession, Settle;
  }

  lemma TasksStep(st: State, a: Action)
    requires Refs(st) && Enabled(st, a)
    ensures TasksFollow(st, a, Apply(st, a).tasks)
  {
    hide Refs, Enabled, Apply, TasksFollow;
    if a.PullStart? || a.PullSlot? || a.EncodeDone? || a.DrainDone? {
      PullTasks(st, a);
    } else if a.OpenStart? || a.OpenPoll? || a.OpenDone? {
      OpenTasks(st, a);
    } else {
      OtherTasks(st, a);
    }
  }

  /** A job of a closed key is never submitted. */
  lemma ClosedSubmitsNothing(st: State, a: Action, key: OpKey)
    requires Refs(st) && Enabled(st, a) && key in st.closed && NoJobs(st, key)
    ensures NoJobs(Apply(st, a), key)
  {
    TasksStep(st, a);
    hide Apply, Refs, Enabled;
  }

  // ----- Aborts -----

  ghost predicate JobsAmong(st: State, key: OpKey, pending: set<Ref>) {
    forall u :: u in st.tasks && st.tasks[u].HasJob() && st.tasks[u].Key() == key ==> u in pending
  }

  /** The abort's handler is past its start; while it drains, it waits for every job of its key. */
  ghost predicate Watched(st: State, t: Ref, key: OpKey) {
    && t < st.next
    && (t in st.tasks ==> st.tasks[t].Key() == key && !st.tasks[t].pc.AbortNew?)
    && (t in st.tasks && st.tasks[t].pc.AbortDraining? ==> JobsAmong(st, key, st.tasks[t].pc.pending))
  }

  lemma AbortStartWatches(st: State, t: Ref, target: Option<Ref>)
    requires Refs(st) && Enabled(st, AbortStart(t, target)) && OperationsExact(st)
    ensures Watched(Apply(st, AbortStart(t, target)), t, st.tasks[t].Key())
  {
    hide BookRefs, TaskRefs, CancelSession;
    var st', key := Apply(st, AbortStart(t, target)), st.tasks[t].Key();
    forall u | u in st'.tasks && st'.tasks[u].HasJob() && st'.tasks[u].Key() == key ensures u in st'.tasks[t].pc.pending {
      assert u != t && st.tasks[u] == st'.tasks[u];
    }
  }

  lemma PollKeepsClock(st: State, t: Ref)
    requires t in st.tasks && st.tasks[t].pc.OpenPolling? && st.tasks[t].pc.send in st.book.sends
    ensures ApplyOpenPoll(st, t).next == st.next && ApplyOpenPoll(st, t).now == st.now
  {
    hide FinishSend, AbandonOpen, Claim;
  }

  lemma StartGrows(st: State, t: Ref)
    requires Refs(st) && Enabled(st, OpenStart(t))
    ensures st.next <= Apply(st, OpenStart(t)).next && st.now == Apply(st, OpenStart(t)).now
  {
    hide ApplyOpenPoll, TaskRefs;
    PollKeepsClock(BeginOpen(st, t), t);
  }

  lemma NextGrows(st: State, a: Action)
    requires Refs(st) && Enabled(st, a)
    ensures st.next <= Apply(st, a).next
  {
    hide BookRefs, TaskRefs, CancelAll, CancelSession, Uncount, CompleteSession, FinishSend, Settle, Discard, ApplyOpenStart;
    if a.OpenStart? { StartGrows(st, a.t); }
  }

  /** While the key is closed no step adds a job that the abort does not wait for. */
  lemma WatchStep(st: State, a: Action, t: Ref, key: OpKey)
    requires Refs(st) && Enabled(st, a) && Watched(st, t, key) && key in st.closed
    ensures Watched(Apply(st, a), t, key)
  {
    TasksStep(st, a);
    NextGrows(st, a);
    hide Apply, Refs, Enabled;
  }

  ghost function AbortedKey(states: seq<State>, acts: seq<Action>, a: nat): OpKey
    requires a < |acts| && a < |states| && Refs(states[a]) && Enabled(states[a], acts[a]) && acts[a].AbortStart?
  {
    states[a].tasks[acts[a].t].Key()
  }

  lemma {:induction false} StaysWatched(states: seq<State>, acts: seq<Action>, slotCount: nat, a: nat, m: nat)
    requires IsRun(states, acts, slotCount) && a < m < |states| && acts[a].AbortStart?
    requires forall k :: a < k < m ==> AbortedKey(states, acts, a) in states[k].closed
    ensures Watched(states[m], acts[a].t, AbortedKey(states, acts, a))
    decreases m
  {
    hide Base, Refs, Enabled, Apply, Watched;
    if m == a + 1 {
      RunBase(states, acts, slotCount, a);
      BaseOperations(states[a], slotCount);
      AbortStartWatches(states[a], acts[a].t, acts[a].target);
    } else {
      StaysWatched(states, acts, slotCount, a, m - 1);
      WatchStep(states[m - 1], acts[m - 1], acts[a].t, AbortedKey(states, acts, a));
    }
  }

  lemma BaseOperations(st: State, slotCount: nat)
    requires Base(st, slotCount)
    ensures OperationsExact(st) && AbortsGuarded(st)
  {
  }

  /** An error-free acknowledgement is sent only once no job of the key is outstanding. */
  lemma CleanAckIsQuiet(st: State, t: Ref, order: seq<Ref>)
    requires Refs(st) && Enabled(st, AbortDrained(t, order))
    requires Watched(st, t, st.tasks[t].Key()) && st.tasks[t].Key() in st.closed
    ensures NoJobs(st, st.tasks[t].Key()) && NoJobs(Apply(st, AbortDrained(t, order)), st.tasks[t].Key())
  {
    hide BookRefs, TaskRefs, Apply, ValidOrder;
    assert JobsAmong(st, st.tasks[t].Key(), st.tasks[t].pc.pending);
    ClosedSubmitsNothing(st, AbortDrained(t, order), st.tasks[t].Key());
  }

  /** Abort quiescence: whatever is dispatched before, during or after the abort, once
      the helper has acknowledged it without error no open or encode job of the key is
      outstanding in any later state, as long as the key has stayed in `_closed` since
      the abort began.  No timing is assumed. */
  lemma {:induction false} AbortQuiescence(
    states: seq<State>, acts: seq<Action>, slotCount: nat, a: nat, i: nat, j: nat)
    requires IsRun(states, acts, slotCount) && a < i < j < |states|
    requires acts[a].AbortStart? && acts[i].AbortDrained? && acts[i].t == acts[a].t
    requires forall m :: a < m < j ==> AbortedKey(states, acts, a) in states[m].closed
    ensures NoJobs(states[j], AbortedKey(states, acts, a))
    decreases j
  {
    var key := AbortedKey(states, acts, a);
    hide Base, Refs, Enabled, Apply, NoJobs, AbortedKey;
    if j == i + 1 {
      StaysWatched(states, acts, slotCount, a, i);
      AckedTask(states[i], acts[i], key);
      CleanAckIsQuiet(states[i], acts[i].t, acts[i].order);
    } else {
      AbortQuiescence(states, acts, slotCount, a, i, j - 1);
      ClosedSubmitsNothing(states[j - 1], acts[j - 1], key);
    }
  }

  lemma AckedTask(st: State, a: Action, key: OpKey)
    requires Refs(st) && Enabled(st, a) && a.AbortDrained? && Watched(st, a.t, key)
    ensures a.t in st.tasks && st.tasks[a.t].Key() == key
  {
  }

  /** The key does stay closed until the acknowledgement when the drain's end is handled
      before the entry can expire, 60 seconds after the drain would have timed out. */
  lemma PromptDrainStaysClosed(st: State, slotCount: nat, t: Ref)
    requires Base(st, slotCount) && t in st.tasks && st.tasks[t].pc.AbortDraining? && st.now < Expiry(st.tasks[t].pc)
    ensures st.tasks[t].Key() in st.closed
  {
    BaseOperations(st, slotCount);
    hide Base;
    assert AbortGuard(st, t);
  }

  /** The abort's handler has started and keeps its key. */
  ghost predicate Begun(st: State, t: Ref, key: OpKey) {
    t < st.next && (t in st.tasks ==> st.tasks[t].Key() == key && !st.tasks[t].pc.AbortNew?)
  }

  lemma BegunStep(st: State, a: Action, t: Ref, key: OpKey)
    requires Refs(st) && Enabled(st, a) && Begun(st, t, key)
    ensures Begun(Apply(st, a), t, key)
    ensures t in Apply(st, a).tasks && Apply(st, a).tasks[t].pc.AbortDraining? ==> t in st.tasks && st.tasks[t] == Apply(st, a).tasks[t]
  {
    TasksStep(st, a);
    NextGrows(st, a);
    hide Apply, Refs, Enabled;
  }

  lemma NowGrows(st: State, a: Action)
    requires Refs(st) && Enabled(st, a)
    ensures st.now <= Apply(st, a).now
  {
    hide BookRefs, TaskRefs, CancelAll, CancelSession, Uncount, CompleteSession, FinishSend, Settle, Discard, ApplyOpenStart;
    if a.OpenStart? { StartGrows(st, a.t); }
  }

  lemma {:induction false} StaysBegun(states: seq<State>, acts: seq<Action>, slotCount: nat, a: nat, m: nat)
    requires IsRun(states, acts, slotCount) && a < m < |states| && acts[a].AbortStart?
    ensures Begun(states[m], acts[a].t, AbortedKey(states, acts, a))
    decreases m
  {
    hide Base, Refs, Enabled, Apply;
    if m == a + 1 {
      RunBase(states, acts, slotCount, a);
      BaseOperations(states[a], slotCount);
      AbortStartWatches(states[a], acts[a].t, acts[a].target);
    } else {
      StaysBegun(states, acts, slotCount, a, m - 1);
      BegunStep(states[m - 1], acts[m - 1], acts[a].t, AbortedKey(states, acts, a));
    }
  }

  /** A handler that drains at i has been draining, with the same deadline, since it began. */
  lemma {:induction false} DrainedBefore(states: seq<State>, acts: seq<Action>, slotCount: nat, a: nat, m: nat, i: nat)
    requires IsRun(states, acts, slotCount) && a < m <= i < |states| && acts[a].AbortStart?
    requires acts[a].t in states[i].tasks && states[i].tasks[acts[a].t].pc.AbortDraining?
    ensures acts[a].t in states[m].tasks && states[m].tasks[acts[a].t] == states[i].tasks[acts[a].t] && states[m].now <= states[i].now
    decreases i - m
  {
    hide Base, Refs, Enabled, Apply;
    if m < i {
      DrainedBefore(states, acts, slotCount, a, m + 1, i);
      StaysBegun(states, acts, slotCount, a, m);
      BegunStep(states[m], acts[m], acts[a].t, AbortedKey(states, acts, a));
      NowGrows(states[m], acts[m]);
    }
  }

  /** A drain whose end is handled before its entry can expire has had its key closed all along. */
  lemma PromptDrainClosedThroughout(states: seq<State>, acts: seq<Action>, slotCount: nat, a: nat, m: nat, i: nat)
    requires IsRun(states, acts, slotCount) && a < m <= i < |states| && acts[a].AbortStart?
    requires acts[a].t in states[i].tasks && states[i].tasks[acts[a].t].pc.AbortDraining?
    requires states[i].now < Expiry(states[i].tasks[acts[a].t].pc)
    ensures AbortedKey(states, acts, a) in states[m].closed
  {
    var key := AbortedKey(states, acts, a);
    hide Base, Refs, Enabled, Apply, AbortedKey;
    DrainedBefore(states, acts, slotCount, a, m, i);
    StaysBegun(states, acts, slotCount, a, m);
    RunBase(states, acts, slotCount, m);
    PromptDrainStaysClosed(states[m], slotCount, acts[a].t);
  }

  /** Abort quiescence for a drain handled in time: the key need only stay closed from
      the acknowledgement on. */
  lemma PromptAbortQuiescence(states: seq<State>, acts: seq<Action>, slotCount: nat, a: nat, i: nat, j: nat)
    requires IsRun(states, acts, slotCount) && a < i < j < |states|
    requires acts[a].AbortStart? && acts[i].AbortDrained? && acts[i].t == acts[a].t
    requires acts[i].t in states[i].tasks && states[i].tasks[acts[i].t].pc.AbortDraining?
    requires states[i].now < Expiry(states[i].tasks[acts[i].t].pc)
    requires forall m :: i < m < j ==> AbortedKey(states, acts, a) in states[m].closed
    ensures NoJobs(states[j], AbortedKey(states, acts, a))
  {
    hide Base, Refs, Enabled, Apply, NoJobs, AbortedKey;
    forall m | a < m < j ensures AbortedKey(states, acts, a) in states[m].closed {
      if m <= i { PromptDrainClosedThroughout(states, acts, slotCount, a, m, i); }
    }
    AbortQuiescence(states, acts, slotCount, a, i, j);
  }
}
