/** `_SessionService`: the helper's own dictionaries, updated in place.  Every
    method is one action and ends in the state the transition system prescribes. */
module SessionService {
  import opened Wrappers
  import opened SessionModel
  import opened SessionAbort
  import opened SessionAccounting

  class Service {
    var now: real
    var closed: map<OpKey, real>
    var operations: map<OpKey, set<Ref>>
    var tasks: map<Ref, Task>
    var senderSlots: seq<nat>
    var next: Ref
    var sendMeta: map<Name, Ref>
    var sends: map<Ref, SendState>
    var producerSessions: map<SessionKey, Ref>
    var sessions: map<Ref, Session>
    var finalEvents: seq<FinalEvent>
    ghost var finishes: multiset<Ref>
    ghost var announced: set<Name>
    ghost var dropped: set<Name>

    ghost function BookView(): Book
      reads this
    {
      Book(sendMeta, sends, producerSessions, sessions, finalEvents, finishes, announced, dropped)
    }

    ghost function View(): State
      reads this
    {
      State(now, closed, operations, tasks, senderSlots, next, BookView())
    }

    constructor (slotCount: nat)
      ensures View() == Init(slotCount)
    {
      now, closed, operations, tasks, next := 0.0, map[], map[], map[], 0;
      senderSlots := seq(slotCount, i => i);
      sendMeta, sends, producerSessions, sessions, finalEvents := map[], map[], map[], map[], [];
      finishes, announced, dropped := multiset{}, {}, {};
    }

    method Advance(t: Ref, pc: Handler)
      requires t in tasks
      modifies this`tasks
      ensures View() == SetPc(old(View()), t, pc)
    {
      tasks := tasks[t := tasks[t].(pc := pc)];
    }

    /** `_finish_send_meta` */
    method FinishSendMeta(s: Ref)
      requires s in sends
      modifies this`sends, this`sendMeta, this`finalEvents
      ensures BookView() == FinishSend(old(BookView()), s)
    {
      var state := sends[s];
      state := state.(sending := state.sending - 1);
      state := state.(sent := state.sent + 1);
      sends := sends[s := state];
      if state.sent == state.needSend && state.tid in sendMeta {
        sendMeta := sendMeta - {state.tid};
        finalEvents := finalEvents + [FinalEvent(Sending, state.tid, state.preq)];
      }
    }

    /** `_discard_producer_session` */
    method DiscardProducerSession(o: Ref)
      requires HasSession(BookView(), o)
      modifies this`sends, this`sendMeta, this`finalEvents, this`producerSessions, this`finishes
      ensures BookView() == Discard(old(BookView()), o)
    {
      var session := sessions[o];
      var registered := session.skey in producerSessions && producerSessions[session.skey] == o;
      producerSessions := producerSessions - {session.skey};
      if !registered {
        return;
      }
      if session.phase == Cancelled || session.phase == Failed {
        finishes := finishes + multiset{o};
        FinishSendMeta(session.send);
      } else {
        sends := sends[session.send := sends[session.send].(sending := sends[session.send].sending - 1)];
      }
    }

    /** `_complete_producer_session` */
    method CompleteProducerSession(o: Ref)
      requires HasSession(BookView(), o)
      modifies this`sends, this`sendMeta, this`finalEvents, this`producerSessions, this`finishes, this`sessions, this`closed
      ensures BookView() == CompleteSession(old(BookView()), o)
      ensures closed == CloseCompleted(old(closed), now, old(BookView()), o)
    {
      var session := sessions[o];
      var registered := session.skey in producerSessions && producerSessions[session.skey] == o;
      producerSessions := producerSessions - {session.skey};
      if !registered {
        return;
      }
      sessions := sessions[o := session.(phase := Complete)];
      closed := closed[session.Key() := now + PENDING_REQ_EXPIRY];
      finishes := finishes + multiset{o};
      FinishSendMeta(session.send);
    }

    method SettleSession(o: Ref)
      requires HasSession(BookView(), o)
      modifies this`sends, this`sendMeta, this`finalEvents, this`producerSessions, this`finishes
      ensures BookView() == Settle(old(BookView()), o)
    {
      if sessions[o].inflight == 0 && (sessions[o].phase == Cancelled || sessions[o].phase == Failed) {
        DiscardProducerSession(o);
      }
    }

    method Mark(o: Ref, phase: Phase)
      requires o in sessions
      modifies this`sessions
      ensures BookView() == SetPhase(old(BookView()), o, phase)
    {
      sessions := sessions[o := sessions[o].(phase := phase)];
    }

    /** One entry of each list of `_apply_producer_metadata`. */
    method ApplyAnnouncement(tid: Name, preq: Name)
      requires tid in sendMeta ==> sendMeta[tid] in sends
      modifies this
      ensures View() == ApplyAnnounce(old(View()), tid, preq)
    {
      if tid !in sendMeta {
        sends := sends[next := NewSend(tid, None)];
        sendMeta := sendMeta[tid := next];
        next := next + 1;
      }
      var s := sendMeta[tid];
      sends := sends[s := sends[s].(preq := Some(preq), expire := Some(now + ABORT_TIMEOUT), ready := true)];
      announced := announced + {tid};
      assert sendMeta == old(sendMeta)[tid := s];
    }

    method ApplyPublication(tid: Name, preq: Name)
      requires tid in sendMeta ==> sendMeta[tid] in sends
      modifies this
      ensures View() == ApplyPublish(old(View()), tid, preq)
    {
      if tid !in sendMeta {
        sends := sends[next := NewSend(tid, Some(preq))];
        sendMeta := sendMeta[tid := next];
        next := next + 1;
      } else if sends[sendMeta[tid]].preq.None? {
        sends := sends[sendMeta[tid] := sends[sendMeta[tid]].(preq := Some(preq))];
      }
    }

    method DropTransfer(tid: Name)
      modifies this
      ensures View() == ApplyDrop(old(View()), tid)
    {
      sendMeta := sendMeta - {tid};
      dropped := dropped + {tid};
    }

    /** `_dispatch_producer` */
    method DispatchProducer(skey: SessionKey, nonce: Name, request: Request) returns (t: Ref)
      modifies this
      ensures t == old(next) && View() == ApplyDispatch(old(View()), skey, nonce, request)
    {
      t := next;
      var task := NewTask(skey, nonce, request);
      closed := map k | k in closed && closed[k] > now :: closed[k];
      tasks := tasks[t := task];
      if !request.AbortRequest? {
        var key := task.Key();
        var pending := if key in operations then operations[key] else {};
        operations := operations[key := pending + {t}];
      }
      next := next + 1;
    }

    /** `_open_producer_session` up to the first wait. */
    method OpenProducerSession(t: Ref)
      requires t in tasks && tasks[t].pc.OpenNew? && (tasks[t].skey.tid in sendMeta ==> sendMeta[tasks[t].skey.tid] in sends)
      modifies this
      ensures View() == ApplyOpenStart(old(View()), t)
    {
      hide ApplyOpenPoll;
      AttachSend(t);
      PollReady(t);
    }

    /** Find or create the send state of the open's transfer. */
    method AttachSend(t: Ref)
      requires t in tasks && tasks[t].pc.OpenNew?
      modifies this
      ensures View() == BeginOpen(old(View()), t)
    {
      var tid, ranks := tasks[t].skey.tid, tasks[t].pc.ranks;
      var created := false;
      if tid !in sendMeta {
        sends := sends[next := NewSend(tid, None)];
        sendMeta := sendMeta[tid := next];
        next := next + 1;
        created := true;
      }
      Advance(t, OpenPolling(ranks, sendMeta[tid], created, now + ABORT_TIMEOUT));
    }

    /** One turn of `_wait_ready` and, once ready, the claim and the open job. */
    method PollReady(t: Ref)
      requires t in tasks && tasks[t].pc.OpenPolling? && tasks[t].pc.send in sends
      modifies this
      ensures View() == ApplyOpenPoll(old(View()), t)
    {
      hide FinishSend;
      var OpenPolling(ranks, s, created, deadline) := tasks[t].pc;
      var key := tasks[t].Key();
      if sends[s].ready {
        sends := sends[s := sends[s].(sending := sends[s].sending + 1)];
        if sends[s].needSend == 0 {
          sends := sends[s := sends[s].(needSend := ranks)];
        }
        assert BookView() == PutSend(old(BookView()), s, Claim(old(sends[s]), ranks));
        if key in closed {
          FinishSendMeta(s);
          Advance(t, Responding);
        } else {
          Advance(t, OpenJob(s));
        }
      } else if key in closed || deadline <= now {
        var tid := sends[s].tid;
        if created && tid in sendMeta && sendMeta[tid] == s && !sends[s].ready && sends[s].preq.None? && sends[s].sending == 0 {
          sendMeta := sendMeta - {tid};
        }
        Advance(t, Responding);
      }
    }

    /** `_open_producer_session` after the open job has answered. */
    method OpenAnswered(t: Ref, ok: bool, total: nat)
      requires t in tasks && tasks[t].pc.OpenJob? && tasks[t].pc.send in sends
      modifies this
      ensures View() == ApplyOpenDone(old(View()), t, ok, total)
    {
      var task := tasks[t];
      var s := task.pc.send;
      Advance(t, Responding);
      if !ok {
        FinishSendMeta(s);
        return;
      }
      sessions := sessions[t := Session(task.skey, task.nonce, s, total, 0, 0, Active, {}, {})];
      producerSessions := producerSessions[task.skey := t];
      if total == 0 {
        CompleteProducerSession(t);
      }
    }

    /** A pull on a session that is not active fails it and settles it. */
    method RefusePull(o: Ref)
      requires HasSession(BookView(), o)
      modifies this`producerSessions, this`sessions, this`sends, this`sendMeta, this`finalEvents, this`finishes
      ensures BookView() == Settle(SetPhase(old(BookView()), o, Failed), o)
    {
      hide Settle;
      Mark(o, Failed);
      SettleSession(o);
    }

    /** `_serve_producer_chunk` up to the slot queue. */
    method ServeProducerChunk(t: Ref)
      requires t in tasks && tasks[t].pc.PullNew?
      requires tasks[t].skey in producerSessions ==> HasSession(BookView(), producerSessions[tasks[t].skey])
      modifies this
      ensures View() == ApplyPullStart(old(View()), t)
    {
      var task := tasks[t];
      if task.skey !in producerSessions {
        Advance(t, Responding);
        return;
      }
      var o := producerSessions[task.skey];
      hide Settle;
      if sessions[o].phase != Active {
        RefusePull(o);
        Advance(t, Responding);
      } else {
        var x := sessions[o];
        sessions := sessions[o := x.(inflight := x.inflight + 1, pulled := x.pulled + {task.pc.chunk})];
        Advance(t, PullWaiting(task.pc.chunk, o));
      }
    }

    /** A free slot reaches the handler: encode, or drain when the session is gone. */
    method TakeSlot(t: Ref)
      requires t in tasks && tasks[t].pc.PullWaiting? && tasks[t].pc.session in sessions && senderSlots != []
      modifies this
      ensures View() == ApplyPullSlot(old(View()), t)
    {
      var PullWaiting(chunk, o) := tasks[t].pc;
      var slot := senderSlots[0];
      senderSlots := senderSlots[1..];
      if sessions[o].phase != Active || tasks[t].Key() in closed {
        Mark(o, Failed);
        Advance(t, PullDraining(chunk, o, slot));
      } else {
        Advance(t, PullEncoding(chunk, o, slot));
      }
    }

    /** A chunk handler's count is returned and its session settled. */
    method UncountSession(o: Ref)
      requires HasSession(BookView(), o)
      modifies this`producerSessions, this`sessions, this`sends, this`sendMeta, this`finalEvents, this`finishes
      ensures BookView() == Uncount(old(BookView()), o)
    {
      hide Settle;
      sessions := sessions[o := sessions[o].(inflight := sessions[o].inflight - 1)];
      SettleSession(o);
    }

    /** The `finally` block once the slot is idle. */
    method ReleaseChunk(t: Ref, o: Ref, slot: nat)
      requires t in tasks && HasSession(BookView(), o)
      modifies this
      ensures View() == SetPc(old(View()), t, Responding).(slots := old(senderSlots) + [slot], book := Uncount(old(BookView()), o))
    {
      hide Uncount;
      senderSlots := senderSlots + [slot];
      UncountSession(o);
      Advance(t, Responding);
    }

    /** Count a chunk as done and complete the session with the last one. */
    method CountChunk(o: Ref, chunk: nat)
      requires HasSession(BookView(), o)
      modifies this`sends, this`sendMeta, this`finalEvents, this`producerSessions, this`finishes, this`sessions, this`closed
      ensures HasSession(BookView(), o)
      ensures var b := PutSession(old(BookView()), o, CountDone(old(sessions[o]), chunk));
        if Completes(b.sessions[o]) then
          BookView() == CompleteSession(b, o) && closed == CloseCompleted(old(closed), now, b, o)
        else BookView() == b && closed == old(closed)
    {
      hide CompleteSession, FinishSend;
      var x := sessions[o];
      sessions := sessions[o := x.(completed := x.completed + 1, done := x.done + {chunk})];
      CompleteCloses(BookView(), o);
      if x.phase == Active && x.completed + 1 == x.total {
        CompleteProducerSession(o);
      }
    }

    method EncodeAnswered(t: Ref, ok: bool)
      requires t in tasks && tasks[t].pc.PullEncoding? && HasSession(BookView(), tasks[t].pc.session)
      modifies this
      ensures View() == ApplyEncodeDone(old(View()), t, ok)
    {
      hide CompleteSession, Uncount, CloseCompleted;
      var PullEncoding(chunk, o, slot) := tasks[t].pc;
      if !ok {
        Mark(o, Failed);
        Advance(t, PullDraining(chunk, o, slot));
      } else {
        CountChunk(o, chunk);
        ReleaseChunk(t, o, slot);
      }
    }

    method DrainAnswered(t: Ref)
      requires t in tasks && tasks[t].pc.PullDraining? && HasSession(BookView(), tasks[t].pc.session)
      modifies this
      ensures View() == ApplyDrainDone(old(View()), t)
    {
      var PullDraining(_, o, slot) := tasks[t].pc;
      ReleaseChunk(t, o, slot);
    }

    /** The session an abort is for: the one under its own key, or else any with the
        same transfer, request and nonce. */
    method FindTarget(task: Task) returns (target: Option<Ref>)
      requires Indexes(BookView())
      ensures ValidTarget(BookView(), task, target)
    {
      if task.skey in producerSessions { return Some(producerSessions[task.skey]); }
      var left := producerSessions.Keys;
      while left != {}
        invariant left <= producerSessions.Keys
        invariant forall k :: k in producerSessions && k !in left ==> sessions[producerSessions[k]].Key() != task.Key()
        decreases left
      {
        var k :| k in left;
        if sessions[producerSessions[k]].Key() == task.Key() { return Some(producerSessions[k]); }
        left := left - {k};
      }
      return None;
    }

    /** The target, if it is this abort's session, is cancelled. */
    method CancelTarget(task: Task, target: Option<Ref>)
      requires target.Some? ==> HasSession(BookView(), target.value)
      modifies this`producerSessions, this`sessions, this`sends, this`sendMeta, this`finalEvents, this`finishes
      ensures BookView() == if target.Some? && old(sessions[target.value].nonce) == task.nonce
                            then CancelSession(old(BookView()), target.value) else old(BookView())
    {
      hide Settle;
      if target.Some? && sessions[target.value].nonce == task.nonce {
        Mark(target.value, Cancelled);
        SettleSession(target.value);
      }
    }

    /** The key is closed, the target cancelled, and what to wait for is fixed. */
    method BeginDrain(t: Ref, target: Option<Ref>)
      requires t in tasks && (target.Some? ==> HasSession(BookView(), target.value))
      modifies this
      ensures View() == ApplyAbortStart(old(View()), t, target)
    {
      hide CancelSession;
      var key := tasks[t].Key();
      closed := closed[key := now + PENDING_REQ_EXPIRY];
      CancelTarget(tasks[t], target);
      var pending := if key in operations then operations[key] else {};
      Advance(t, AbortDraining(pending, target, now + ABORT_TIMEOUT));
    }

    /** `_abort_producer` up to `drain()`. */
    method AbortProducer(t: Ref) returns (target: Option<Ref>)
      requires t in tasks && Indexes(BookView())
      modifies this
      ensures ValidTarget(old(BookView()), old(tasks[t]), target) && (target.Some? ==> HasSession(old(BookView()), target.value))
      ensures View() == ApplyAbortStart(old(View()), t, target)
    {
      hide ValidTarget, ApplyAbortStart;
      target := FindTarget(tasks[t]);
      if target.Some? { TargetHas(BookView(), tasks[t], target); }
      BeginDrain(t, target);
    }

    /** A snapshot of the sessions of a key, in the dictionary's order. */
    method SessionsOf(key: OpKey) returns (order: seq<Ref>)
      requires Indexes(BookView())
      ensures ValidOrder(BookView(), key, order)
    {
      order := [];
      var left := producerSessions.Keys;
      while left != {}
        invariant left <= producerSessions.Keys
        invariant forall a, b :: 0 <= a < b < |order| ==> order[a] != order[b]
        invariant forall a :: 0 <= a < |order| ==>
          Live(BookView(), order[a]) && sessions[order[a]].Key() == key && sessions[order[a]].skey !in left
        invariant forall k :: k in producerSessions && k !in left && sessions[producerSessions[k]].Key() == key ==> producerSessions[k] in order
        decreases left
      {
        var k :| k in left;
        var o := producerSessions[k];
        left := left - {k};
        if sessions[o].Key() == key { order := order + [o]; }
      }
    }

    method CancelEach(order: seq<Ref>)
      requires HasSessions(BookView(), order)
      modifies this`producerSessions, this`sessions, this`sends, this`sendMeta, this`finalEvents, this`finishes
      ensures BookView() == CancelAll(old(BookView()), order)
    {
      hide Settle, Discard;
      assert order[0..] == order;
      var i := 0;
      while i < |order|
        invariant 0 <= i <= |order| && HasSessions(BookView(), order[i..])
        invariant CancelAll(BookView(), order[i..]) == CancelAll(old(BookView()), order)
      {
        assert order[i..][0] == order[i] && order[i..][1..] == order[i + 1..] && HasSession(BookView(), order[i..][0]);
        StillHas(BookView(), order[i..]);
        Mark(order[i], Cancelled);
        SettleSession(order[i]);
        i := i + 1;
      }
    }

    /** The end of `_abort_producer`: every session still registered under the key is cancelled. */
    method AbortDrained(t: Ref, clean: bool) returns (order: seq<Ref>)
      requires t in tasks && Indexes(BookView())
      modifies this
      ensures ValidOrder(old(BookView()), old(tasks[t].Key()), order) && HasSessions(old(BookView()), order)
      ensures View() == ApplyAbortEnd(old(View()), t, order, clean)
    {
      hide ValidOrder, CancelAll, HasSessions;
      order := SessionsOf(tasks[t].Key());
      OrderHas(BookView(), tasks[t].Key(), order);
      CancelEach(order);
      Advance(t, AbortAcked(clean));
    }

    /** The done callback of a request task. */
    method TaskDone(t: Ref)
      requires t in tasks
      modifies this
      ensures View() == ApplyRespond(old(View()), t)
    {
      var task := tasks[t];
      tasks := tasks - {t};
      var key := task.Key();
      if !task.IsAbort() && key in operations {
        var pending := operations[key] - {t};
        operations := if pending == {} then operations - {key} else operations[key := pending];
      }
    }

    /** One pass of `_sweep_sends`, in the dictionary's order: exactly the expired, named,
        unclaimed transfers leave the index, one event each. */
    method SweepSends() returns (order: seq<Name>)
      requires forall tid :: tid in sendMeta ==> sendMeta[tid] in sends
      modifies this`sendMeta, this`finalEvents
      ensures Distinct(order) && forall tid :: tid in order <==> tid in old(sendMeta)
      ensures forall tid :: tid in sendMeta <==> tid in old(sendMeta) && !Expired(old(View()), tid)
      ensures forall tid :: tid in sendMeta ==> sendMeta[tid] == old(sendMeta[tid])
      ensures finalEvents == old(finalEvents) + Expirations(old(View()), order)
    {
      order := [];
      var left := sendMeta.Keys;
      while left != {}
        invariant left <= old(sendMeta).Keys && Distinct(order)
        invariant forall tid :: tid in order <==> tid in old(sendMeta) && tid !in left
        invariant forall tid :: tid in sendMeta <==> tid in old(sendMeta) && (tid in left || !Expired(old(View()), tid))
        invariant forall tid :: tid in sendMeta ==> sendMeta[tid] == old(sendMeta[tid])
        invariant finalEvents == old(finalEvents) + Expirations(old(View()), order)
        decreases left
      {
        var tid :| tid in left;
        var e := sends[sendMeta[tid]];
        ghost var before := order;
        order := order + [tid];
        assert order[..|before|] == before;
        if e.preq.Some? && e.expire.Some? && e.expire.value < now && e.sending == 0 {
          finalEvents := finalEvents + [FinalEvent(SendingExpired, tid, e.preq)];
          sendMeta := sendMeta - {tid};
        }
        left := left - {tid};
      }
    }
  }

  lemma TargetHas(b: Book, task: Task, target: Option<Ref>)
    requires Indexes(b) && ValidTarget(b, task, target) && target.Some?
    ensures HasSession(b, target.value)
  {
  }

  lemma OrderHas(b: Book, key: OpKey, order: seq<Ref>)
    requires Indexes(b) && ValidOrder(b, key, order)
    ensures HasSessions(b, order)
  {
  }

  predicate Expired(st: State, tid: Name) {
    tid in st.book.meta && st.book.meta[tid] in st.book.sends &&
    var e := st.book.sends[st.book.meta[tid]];
    e.preq.Some? && e.expire.Some? && e.expire.value < st.now && e.sending == 0
  }

  /** The loop's test is the guard of the sweep action. */
  lemma ExpiredIsEnabled(st: State, tid: Name)
    requires Refs(st)
    ensures Expired(st, tid) <==> Enabled(st, Sweep(tid))
  {
    hide TaskRefs;
  }

  ghost predicate Distinct(tids: seq<Name>) {
    forall i, j :: 0 <= i < j < |tids| ==> tids[i] != tids[j]
  }

  /** The events of one pass over the transfers, in order. */
  function Expirations(st: State, tids: seq<Name>): seq<FinalEvent> {
    if tids == [] then []
    else
      var tid := tids[|tids| - 1];
      Expirations(st, tids[..|tids| - 1])
      + (if Expired(st, tid) then [FinalEvent(SendingExpired, tid, st.book.sends[st.book.meta[tid]].preq)] else [])
  }

  ghost function ExpiredOf(st: State, tids: seq<Name>): set<Name> {
    set tid | tid in tids && Expired(st, tid)
  }

  /** The same pass as single actions of the transition system. */
  ghost function SweepAll(st: State, tids: seq<Name>): State
    decreases |tids|
  {
    if tids == [] then st
    else
      var st' := SweepAll(st, tids[..|tids| - 1]);
      var tid := tids[|tids| - 1];
      if Expired(st', tid) then ApplySweep(st', tid) else st'
  }

  /** Sweeping distinct transfers one by one removes the expired ones and adds their events. */
  lemma {:induction false} SweepAllExact(st: State, tids: seq<Name>)
    requires Distinct(tids)
    ensures SweepAll(st, tids) == st.(book := st.book.(
      meta := st.book.meta - ExpiredOf(st, tids),
      events := st.book.events + Expirations(st, tids)))
    decreases |tids|
  {
    hide Expirations, Expired, ExpiredOf, ApplySweep;
    if tids == [] {
      NothingExpired(st);
    } else {
      var n := |tids| - 1;
      SweepAllExact(st, tids[..n]);
      SweepOne(st, tids[..n], tids[n]);
      assert tids == tids[..n] + [tids[n]];
    }
  }

  lemma NothingExpired(st: State)
    ensures st.book.meta - ExpiredOf(st, []) == st.book.meta && Expirations(st, []) == []
  {
    assert ExpiredOf(st, []) == {};
  }

  function Swept(st: State, gone: set<Name>, events: seq<FinalEvent>): State {
    st.(book := st.book.(meta := st.book.meta - gone, events := st.book.events + events))
  }

  lemma SweepOne(st: State, tids: seq<Name>, tid: Name)
    requires tid !in tids
    ensures var st' := Swept(st, ExpiredOf(st, tids), Expirations(st, tids));
      (if Expired(st', tid) then ApplySweep(st', tid) else st')
      == Swept(st, ExpiredOf(st, tids + [tid]), Expirations(st, tids + [tid]))
  {
    assert (tids + [tid])[..|tids|] == tids;
    var gone, gone' := ExpiredOf(st, tids), ExpiredOf(st, tids + [tid]);
    if Expired(st, tid) {
      assert gone' == gone + {tid};
      assert st.book.meta - gone - {tid} == st.book.meta - gone';
    } else {
      assert gone' == gone;
    }
  }
}
