/** When producer blocks may be freed.  Under the protocol's own hypotheses
    (fresh identities, one pull per chunk id, one announcement per transfer, at
    most `need_send` claims) a completion event is final: nothing of its transfer
    is live when it is emitted or afterwards. */
module SessionFreeing {
  import opened Wrappers
  import opened SessionModel
  import opened SessionAbort
  import opened SessionAccounting

  // ----- Hypotheses -----

  ghost function Polled(tasks: map<Ref, Task>): set<Ref> {
    set t | t in tasks && tasks[t].pc.OpenPolling? :: tasks[t].pc.send
  }

  predicate MayClaim(e: SendState) {
    e.ready && e.needSend != 0 ==> e.sending + e.sent < e.needSend
  }

  /** What peers and engine promise about one action. */
  ghost predicate Honest(st: State, a: Action)
    requires Refs(st) && Enabled(st, a)
  {
    match a
    // each transfer is announced at most once; dropped transfers are never announced
    case Announce(tid, _) => tid !in st.book.announced && tid !in st.book.dropped
    case Drop(tid) => tid !in st.book.announced
    // every open comes with a fresh identity
    case Dispatch(skey, _, request) => request.OpenRequest? ==> FreshKey(st, skey)
    // at most `need_send` opens claim a transfer
    case OpenStart(t) =>
      st.tasks[t].skey.tid in st.book.meta ==> MayClaim(st.book.sends[st.book.meta[st.tasks[t].skey.tid]])
    case OpenPoll(t) => MayClaim(st.book.sends[st.tasks[t].pc.send])
    // each chunk id of a session is pulled once
    case PullStart(t) =>
      st.tasks[t].skey in st.book.producers ==>
        var x := st.book.sessions[st.book.producers[st.tasks[t].skey]];
        x.phase == Active ==> st.tasks[t].pc.chunk < x.total && st.tasks[t].pc.chunk !in x.pulled
    // an open woken by an announcement runs before that announcement expires
    case Sweep(tid) => st.book.meta[tid] !in Polled(st.tasks)
    case _ => true
  }

  // ----- Completion events -----

  ghost predicate Freed(b: Book, tid: Name) {
    exists i :: 0 <= i < |b.events| && b.events[i].tid == tid
  }

  ghost predicate SendFits(b: Book, polled: set<Ref>, s: Ref)
    requires s in b.sends
  {
    var e := b.sends[s];
    if !e.ready then e.sending == 0 && e.sent == 0 && e.needSend == 0 && e.expire.None?
    else
      && e.tid in b.announced && e.preq.Some? && e.sending >= 0 && e.sending + e.sent <= e.needSend
      && (if Freed(b, e.tid) then
            && e.sending == 0 && !(e.tid in b.meta && b.meta[e.tid] == s)
            && (s in polled ==> e.needSend > 0 && e.sent == e.needSend)
          else
            e.tid in b.meta && b.meta[e.tid] == s && (e.needSend > 0 ==> e.sent < e.needSend))
  }

  ghost predicate EventsFinal(b: Book, polled: set<Ref>) {
    && (forall s :: s in b.sends ==> SendFits(b, polled, s))
    && (forall s, s' :: s in b.sends && s' in b.sends && b.sends[s].ready && b.sends[s'].ready && b.sends[s].tid == b.sends[s'].tid ==> s == s')
    && (forall i, j :: 0 <= i < j < |b.events| ==> b.events[i].tid != b.events[j].tid)
    && (forall i :: 0 <= i < |b.events| ==> b.events[i].tid in b.announced)
    && b.announced !! b.dropped
  }

  ghost predicate SameSends(b: Book, b': Book) {
    && b'.sends == b.sends && b'.meta == b.meta && b'.events == b.events
    && b'.announced == b.announced && b'.dropped == b.dropped
  }

  lemma SameSendsFinal(b: Book, b': Book, polled: set<Ref>, polled': set<Ref>)
    requires EventsFinal(b, polled) && SameSends(b, b') && polled' <= polled
    ensures EventsFinal(b', polled')
  {
    forall s | s in b'.sends ensures SendFits(b', polled', s) { assert SendFits(b, polled, s); }
  }

  lemma FreedAppend(b: Book, b': Book, x: FinalEvent, tid: Name)
    requires b'.events == b.events + [x]
    ensures Freed(b', tid) <==> Freed(b, tid) || tid == x.tid
  {
    if Freed(b, tid) {
      var i :| 0 <= i < |b.events| && b.events[i].tid == tid;
      assert b'.events[i].tid == tid;
    }
    if tid == x.tid { assert b'.events[|b.events|].tid == tid; }
    if Freed(b', tid) {
      var i :| 0 <= i < |b'.events| && b'.events[i].tid == tid;
      assert i < |b.events| ==> b.events[i].tid == tid;
    }
  }

  lemma EventsDistinct(b: Book, b': Book, x: FinalEvent, polled: set<Ref>)
    requires EventsFinal(b, polled) && b'.events == b.events + [x] && !Freed(b, x.tid)
    ensures forall i, j :: 0 <= i < j < |b'.events| ==> b'.events[i].tid != b'.events[j].tid
  {
    hide SendFits;
    forall i, j | 0 <= i < j < |b'.events| ensures b'.events[i].tid != b'.events[j].tid {
      assert b'.events[i] == b.events[i];
    }
  }

  /** A completion event for a ready, unfreed send state without claims. */
  lemma EventFinal(b: Book, b': Book, s: Ref, x: FinalEvent, polled: set<Ref>)
    requires EventsFinal(b, polled) && s in b.sends && b.sends[s].ready && b.sends[s].tid == x.tid && !Freed(b, x.tid)
    requires s in b'.sends && b'.sends == b.sends[s := b'.sends[s]] && b'.meta == b.meta - {x.tid} && b'.events == b.events + [x]
    requires b'.announced == b.announced && b'.dropped == b.dropped
    requires var e, e' := b.sends[s], b'.sends[s];
      && e'.tid == e.tid && e'.ready && e'.preq == e.preq && e'.sending == 0 && e'.sent <= e'.needSend
      && (s in polled ==> e'.needSend > 0 && e'.sent == e'.needSend)
    ensures EventsFinal(b', polled)
  {
    EventsDistinct(b, b', x, polled);
    assert SendFits(b, polled, s);
    forall r | r in b'.sends ensures SendFits(b', polled, r) {
      assert SendFits(b, polled, r);
      FreedAppend(b, b', x, b.sends[r].tid);
      hide Freed;
      if r != s && b.sends[r].ready { assert b.sends[r].tid != x.tid; }
    }
  }

  lemma CountedDown(b: Book, s: Ref, polled: set<Ref>)
    requires EventsFinal(b, polled) && s in b.sends && b.sends[s].sending > 0 && b.sends[s].sent + 1 != b.sends[s].needSend
    ensures EventsFinal(FinishSend(b, s), polled)
  {
    hide Freed;
    var b' := FinishSend(b, s);
    assert SendFits(b, polled, s);
    assert b'.events == b.events && b'.meta == b.meta;
    forall r | r in b'.sends ensures SendFits(b', polled, r) {
      assert SendFits(b, polled, r);
      SameFreed(b, b', b.sends[r].tid);
    }
  }

  lemma SameFreed(b: Book, b': Book, tid: Name)
    requires b'.events == b.events
    ensures Freed(b', tid) <==> Freed(b, tid)
  {
  }

  /** A claim on a ready, unfinished transfer is returned: the last one emits the event. */
  lemma FinishFinal(b: Book, s: Ref, polled: set<Ref>)
    requires EventsFinal(b, polled) && s in b.sends && b.sends[s].sending > 0
    ensures EventsFinal(FinishSend(b, s), polled)
  {
    assert SendFits(b, polled, s);
    hide Freed, EventsFinal;
    if b.sends[s].sent + 1 == b.sends[s].needSend {
      EventFinal(b, FinishSend(b, s), s, FinalEvent(Sending, b.sends[s].tid, b.sends[s].preq), polled);
    } else {
      CountedDown(b, s, polled);
    }
  }

  lemma ClaimFinal(b: Book, s: Ref, ranks: nat, polled: set<Ref>)
    requires EventsFinal(b, polled) && s in b.sends && s in polled && ranks > 0
    requires b.sends[s].ready && (b.sends[s].needSend != 0 ==> b.sends[s].sending + b.sends[s].sent < b.sends[s].needSend)
    ensures EventsFinal(PutSend(b, s, Claim(b.sends[s], ranks)), polled)
  {
    var b' := PutSend(b, s, Claim(b.sends[s], ranks));
    assert SendFits(b, polled, s);
    forall r | r in b'.sends ensures SendFits(b', polled, r) { assert SendFits(b, polled, r); }
  }

  /** A new unready send state, or an unready one leaving the index, changes nothing. */
  lemma NewSendFinal(b: Book, s: Ref, tid: Name, preq: Option<Name>, polled: set<Ref>, polled': set<Ref>)
    requires EventsFinal(b, polled) && s !in b.sends && tid !in b.meta && polled' <= polled + {s}
    ensures EventsFinal(PutSend(b.(meta := b.meta[tid := s]), s, NewSend(tid, preq)), polled')
  {
    var b' := PutSend(b.(meta := b.meta[tid := s]), s, NewSend(tid, preq));
    forall r | r in b'.sends ensures SendFits(b', polled', r) { if r != s { assert SendFits(b, polled, r); } }
  }

  lemma UnindexFinal(b: Book, b': Book, tid: Name, polled: set<Ref>)
    requires EventsFinal(b, polled) && b'.sends == b.sends && b'.meta == b.meta - {tid}
    requires b'.events == b.events && b'.announced == b.announced
    requires b'.dropped == b.dropped || (b'.dropped == b.dropped + {tid} && tid !in b.announced)
    requires tid in b.meta ==> b.meta[tid] in b.sends && !b.sends[b.meta[tid]].ready
    ensures EventsFinal(b', polled)
  {
    forall r | r in b'.sends ensures SendFits(b', polled, r) { assert SendFits(b, polled, r); }
  }

  lemma UnannouncedUnfreed(b: Book, polled: set<Ref>, tid: Name)
    requires EventsFinal(b, polled) && tid !in b.announced
    ensures !Freed(b, tid)
  {
    hide SendFits;
  }

  /** A transfer's one announcement readies a send state that nothing has claimed. */
  lemma ReadyFinal(b: Book, b': Book, s: Ref, tid: Name, polled: set<Ref>)
    requires EventsFinal(b, polled) && tid !in b.announced && tid !in b.dropped
    requires s in b'.sends && b'.sends == b.sends[s := b'.sends[s]] && b'.meta == b.meta[tid := s] && b'.events == b.events
    requires b'.announced == b.announced + {tid} && b'.dropped == b.dropped
    requires s in b.sends ==> b.sends[s].tid == tid
    requires var e := b'.sends[s]; e.tid == tid && e.ready && e.preq.Some? && e.sending == 0 && e.sent == 0 && e.needSend == 0
    ensures EventsFinal(b', polled)
  {
    UnannouncedUnfreed(b, polled, tid);
    if s in b.sends { assert SendFits(b, polled, s); }
    forall r | r in b'.sends ensures SendFits(b', polled, r) {
      SameFreed(b, b', b'.sends[r].tid);
      hide Freed;
      if r != s { assert SendFits(b, polled, r); }
    }
    forall r, r' | r in b'.sends && r' in b'.sends && b'.sends[r].ready && b'.sends[r'].ready && b'.sends[r].tid == b'.sends[r'].tid
      ensures r == r'
    {
      hide Freed;
      if r in b.sends { assert SendFits(b, polled, r); }
      if r' in b.sends { assert SendFits(b, polled, r'); }
    }
  }

  lemma AnnounceFinal(st: State, tid: Name, preq: Name, polled: set<Ref>)
    requires Refs(st) && EventsFinal(st.book, polled) && tid !in st.book.announced && tid !in st.book.dropped
    ensures EventsFinal(ApplyAnnounce(st, tid, preq).book, polled)
  {
    hide TaskRefs, Freed;
    var b, b' := st.book, ApplyAnnounce(st, tid, preq).book;
    if tid in b.meta { assert SendFits(b, polled, b.meta[tid]); }
    hide EventsFinal;
    ReadyFinal(b, b', b'.meta[tid], tid, polled);
  }

  lemma NameFinal(b: Book, s: Ref, preq: Name, polled: set<Ref>)
    requires EventsFinal(b, polled) && s in b.sends
    ensures EventsFinal(PutSend(b, s, b.sends[s].(preq := Some(preq))), polled)
  {
    var b' := PutSend(b, s, b.sends[s].(preq := Some(preq)));
    forall r | r in b'.sends ensures SendFits(b', polled, r) { assert SendFits(b, polled, r); }
  }

  lemma PublishFinal(st: State, tid: Name, preq: Name, polled: set<Ref>)
    requires Refs(st) && EventsFinal(st.book, polled) && polled <= st.book.sends.Keys
    ensures EventsFinal(ApplyPublish(st, tid, preq).book, polled)
  {
    var b, b' := st.book, ApplyPublish(st, tid, preq).book;
    if tid !in b.meta {
      NewSendFinal(b, st.next, tid, Some(preq), polled, polled);
    } else if b.sends[b.meta[tid]].preq.None? {
      NameFinal(b, b.meta[tid], preq, polled);
    }
  }

  lemma SweepFinal(st: State, tid: Name, polled: set<Ref>)
    requires Refs(st) && EventsFinal(st.book, polled) && Enabled(st, Sweep(tid)) && st.book.meta[tid] !in polled
    ensures EventsFinal(ApplySweep(st, tid).book, polled)
  {
    hide Freed, TaskRefs;
    var b, s := st.book, st.book.meta[tid];
    assert SendFits(b, polled, s);
    hide EventsFinal;
    assert b.sends == b.sends[s := b.sends[s]];
    EventFinal(b, ApplySweep(st, tid).book, s, FinalEvent(SendingExpired, tid, b.sends[s].preq), polled);
  }

  lemma AttachFinal(b: Book, tid: Name, polled: set<Ref>)
    requires EventsFinal(b, polled) && tid in b.meta && b.meta[tid] in b.sends && b.sends[b.meta[tid]].tid == tid
    ensures EventsFinal(b, polled + {b.meta[tid]})
  {
    forall r | r in b.sends ensures SendFits(b, polled + {b.meta[tid]}, r) { assert SendFits(b, polled, r); }
  }

  // ----- Sessions -----

  ghost predicate SessionFits(b: Book, o: Ref)
    requires o in b.sessions
  {
    var x := b.sessions[o];
    && x.done <= x.pulled && (forall c :: c in x.pulled ==> c < x.total) && x.completed == |x.done|
    && (x.phase == Active ==> Live(b, o))
    && (x.phase == Complete ==> !Live(b, o))
  }

  /** Still registered although every chunk is done, or over with no chunk in flight. */
  ghost predicate Lingers(b: Book, o: Ref)
    requires o in b.sessions
  {
    var x := b.sessions[o];
    Live(b, o) && ((x.phase == Active && x.completed == x.total) || ((x.phase == Cancelled || x.phase == Failed) && x.inflight == 0))
  }

  ghost predicate PullFits(tasks: map<Ref, Task>, b: Book, t: Ref)
    requires t in tasks
  {
    forall o :: tasks[t].CountedOn(o) ==>
      Live(b, o) && tasks[t].pc.chunk in b.sessions[o].pulled && tasks[t].pc.chunk !in b.sessions[o].done
  }

  ghost predicate PullsApart(tasks: map<Ref, Task>) {
    forall t, u, o :: t in tasks && u in tasks && t != u && tasks[t].CountedOn(o) && tasks[u].CountedOn(o) ==>
      tasks[t].pc.chunk != tasks[u].pc.chunk
  }

  ghost predicate SessionsOrderly(tasks: map<Ref, Task>, b: Book) {
    && FinishedOnce(b)
    && (forall o :: o in b.sessions ==> SessionFits(b, o))
    && (forall t :: t in tasks ==> PullFits(tasks, b, t))
  }

  ghost predicate NoPulls(tasks: map<Ref, Task>, o: Ref) {
    forall t :: t in tasks ==> !tasks[t].CountedOn(o)
  }

  /** Everything about claims and sessions, where only `o` may still wait to be settled. */
  ghost predicate LedgerBut(tasks: map<Ref, Task>, b: Book, o: Ref) {
    && KeysUnique(tasks, b) && PullsApart(tasks) && SessionsOrderly(tasks, b)
    && SendingExact(tasks, b) && EventsFinal(b, Polled(tasks))
    && (forall p :: p in b.sessions && p != o ==> !Lingers(b, p))
  }

  ghost predicate Ledger(tasks: map<Ref, Task>, b: Book) {
    && KeysUnique(tasks, b) && PullsApart(tasks) && SessionsOrderly(tasks, b)
    && SendingExact(tasks, b) && EventsFinal(b, Polled(tasks))
    && (forall p :: p in b.sessions ==> !Lingers(b, p))
  }

  lemma RetiredOrderly(tasks: map<Ref, Task>, b: Book, b': Book, o: Ref)
    requires KeysUnique(tasks, b) && SessionsOrderly(tasks, b) && Retired(b, b', o) && NoPulls(tasks, o)
    ensures SessionsOrderly(tasks, b')
  {
    RetiredLive(tasks, b, b', o);
    hide KeysUnique;
    forall p | p in b'.sessions ensures SessionFits(b', p) { assert SessionFits(b, p); }
    forall t | t in tasks ensures PullFits(tasks, b', t) { assert PullFits(tasks, b, t); }
  }

  lemma RetiredLedger(tasks: map<Ref, Task>, b: Book, b': Book, o: Ref)
    requires LedgerBut(tasks, b, o) && Retired(b, b', o) && NoPulls(tasks, o)
    requires o in tasks ==> !tasks[o].IsOpening()
    requires EventsFinal(b', Polled(tasks))
    ensures Ledger(tasks, b')
  {
    hide KeysUnique, SessionsOrderly, SendingExact, EventsFinal, PullsApart;
    RetiredSending(tasks, b, b', o);
    RetiredOrderly(tasks, b, b', o);
    RetiredKeys(tasks, b, b', o);
    RetiredLive(tasks, b, b', o);
  }

  lemma SettleLedger(tasks: map<Ref, Task>, b: Book, o: Ref)
    requires LedgerBut(tasks, b, o) && HasSession(b, o) && Live(b, o)
    requires o in tasks ==> !tasks[o].IsOpening()
    requires b.sessions[o].inflight == 0 ==> NoPulls(tasks, o)
    requires !Completes(b.sessions[o])
    ensures Ledger(tasks, Settle(b, o))
  {
    hide KeysUnique, SessionsOrderly, SendingExact, EventsFinal, PullsApart;
    if b.sessions[o].inflight == 0 && b.sessions[o].Over() {
      DiscardRetires(b, o);
      RetiredSending(tasks, b, Discard(b, o), o);
      var b1 := Forget(b, b.sessions[o].skey).(finishes := b.finishes + multiset{o});
      SameSendsFinal(b, b1, Polled(tasks), Polled(tasks));
      FinishFinal(b1, b.sessions[o].send, Polled(tasks));
      hide Retired, NoPulls;
      RetiredLedger(tasks, b, Discard(b, o), o);
    }
  }

  lemma CompleteLedger(tasks: map<Ref, Task>, b: Book, o: Ref)
    requires LedgerBut(tasks, b, o) && HasSession(b, o) && Live(b, o) && NoPulls(tasks, o)
    requires o in tasks ==> !tasks[o].IsOpening()
    ensures Ledger(tasks, CompleteSession(b, o))
  {
    hide KeysUnique, SessionsOrderly, SendingExact, EventsFinal, PullsApart;
    CompleteRetires(b, o);
    RetiredSending(tasks, b, CompleteSession(b, o), o);
    var b1 := SetPhase(Forget(b, b.sessions[o].skey), o, Complete).(finishes := b.finishes + multiset{o});
    SameSendsFinal(b, b1, Polled(tasks), Polled(tasks));
    FinishFinal(b1, b.sessions[o].send, Polled(tasks));
    hide Retired, NoPulls;
    RetiredLedger(tasks, b, CompleteSession(b, o), o);
  }

  lemma PutSessionOrderly(tasks: map<Ref, Task>, b: Book, o: Ref, x: Session)
    requires SessionsOrderly(tasks, b) && o in b.sessions && x.skey == b.sessions[o].skey
    requires SessionFits(PutSession(b, o, x), o)
    requires forall t :: t in tasks && tasks[t].CountedOn(o) ==> tasks[t].pc.chunk in x.pulled && tasks[t].pc.chunk !in x.done
    ensures SessionsOrderly(tasks, PutSession(b, o, x))
  {
    var b' := PutSession(b, o, x);
    PutSessionLive(b, o, x);
    forall p | p in b'.sessions ensures SessionFits(b', p) { assert p != o ==> SessionFits(b, p); }
    forall t | t in tasks ensures PullFits(tasks, b', t) { assert PullFits(tasks, b, t); }
  }

  /** Changing a session record in place, its key, claim and liveness kept. */
  lemma PutSessionLedger(tasks: map<Ref, Task>, b: Book, o: Ref, x: Session)
    requires LedgerBut(tasks, b, o) && o in b.sessions
    requires x.skey == b.sessions[o].skey && x.send == b.sessions[o].send
    requires SessionFits(PutSession(b, o, x), o)
    requires forall t :: t in tasks && tasks[t].CountedOn(o) ==> tasks[t].pc.chunk in x.pulled && tasks[t].pc.chunk !in x.done
    ensures LedgerBut(tasks, PutSession(b, o, x), o)
  {
    hide EventsFinal, SendingExact, SessionsOrderly, PullsApart;
    PutSessionSending(tasks, b, o, x);
    PutSessionOrderly(tasks, b, o, x);
    PutSessionLive(b, o, x);
    SameSendsFinal(b, PutSession(b, o, x), Polled(tasks), Polled(tasks));
  }

  /** Handlers move without touching the book or their claims. */
  ghost predicate SameClaims(tasks: map<Ref, Task>, tasks': map<Ref, Task>) {
    SameOpens(tasks, tasks') && Polled(tasks') <= Polled(tasks)
  }

  lemma TasksLedger(tasks: map<Ref, Task>, tasks': map<Ref, Task>, b: Book, o: Ref)
    requires LedgerBut(tasks, b, o) && SameClaims(tasks, tasks') && PullsApart(tasks')
    requires forall t :: t in tasks' ==> PullFits(tasks', b, t)
    ensures LedgerBut(tasks', b, o)
  {
    hide EventsFinal, SendingExact, PullsApart, FinishedOnce, PullFits, SessionFits;
    SameOpensSending(tasks, tasks', b);
    SameSendsFinal(b, b, Polled(tasks), Polled(tasks'));
  }

  lemma LedgerAsBut(tasks: map<Ref, Task>, b: Book, o: Ref)
    ensures Ledger(tasks, b) ==> LedgerBut(tasks, b, o)
    ensures LedgerBut(tasks, b, o) && (o in b.sessions ==> !Lingers(b, o)) ==> Ledger(tasks, b)
  {
  }

  // ----- Every honest action keeps the ledger -----

  ghost predicate RanksPositive(tasks: map<Ref, Task>) {
    forall t :: t in tasks && (tasks[t].pc.OpenNew? || tasks[t].pc.OpenPolling?) ==> tasks[t].pc.ranks > 0
  }

  ghost predicate Good(st: State, slotCount: nat) {
    Base(st, slotCount) && RanksPositive(st.tasks) && Ledger(st.tasks, st.book)
  }

  lemma SameSessionsOrderly(tasks: map<Ref, Task>, b: Book, b': Book)
    requires SessionsOrderly(tasks, b) && SameSessions(b, b')
    ensures SessionsOrderly(tasks, b')
  {
    assert forall p :: Live(b', p) == Live(b, p);
    forall p | p in b'.sessions ensures SessionFits(b', p) { assert SessionFits(b, p); }
    forall t | t in tasks ensures PullFits(tasks, b', t) { assert PullFits(tasks, b, t); }
  }

  /** Send states change while every claim stays where it is. */
  lemma SendsLedger(tasks: map<Ref, Task>, tasks': map<Ref, Task>, b: Book, b': Book, t: Ref, s: Ref)
    requires Ledger(tasks, b) && SameSessions(b, b')
    requires KeysUnique(tasks', b) && PullsApart(tasks') && (forall u :: u in tasks' ==> PullFits(tasks', b, u))
    requires EventsFinal(b', Polled(tasks')) && SendingFollows(tasks, b, tasks', b', t, s)
    ensures Ledger(tasks', b')
  {
    hide EventsFinal, SendingExact, PullsApart, SendingFollows, PullFits, SessionFits, FinishedOnce;
    SendingStep(tasks, b, tasks', b', t, s);
    assert SessionsOrderly(tasks', b);
    hide SessionsOrderly;
    SameSessionsOrderly(tasks', b, b');
  }

  lemma EngineLedger(st: State, a: Action)
    requires Refs(st) && Ledger(st.tasks, st.book) && Enabled(st, a) && Honest(st, a)
    requires a.Announce? || a.Publish? || a.Drop? || a.Sweep?
    ensures Ledger(st.tasks, Apply(st, a).book)
  {
    var b, b' := st.book, Apply(st, a).book;
    var polled := Polled(st.tasks);
    assert polled <= b.sends.Keys by {
      forall s | s in polled ensures s in b.sends {
        var t :| t in st.tasks && st.tasks[t].pc.OpenPolling? && st.tasks[t].pc.send == s;
        assert TaskRefs(b, st.tasks[t]);
      }
    }
    hide Polled, SendingExact, PullsApart, SessionsOrderly, KeysUnique;
    assert EventsFinal(b', polled) by {
      match a
      case Announce(tid, preq) => AnnounceFinal(st, tid, preq, polled);
      case Publish(tid, preq) => PublishFinal(st, tid, preq, polled);
      case Drop(tid) =>
        if tid in b.meta { assert SendFits(b, polled, b.meta[tid]); }
        UnindexFinal(b, b', tid, polled);
      case Sweep(tid) => SweepFinal(st, tid, polled);
    }
    hide EventsFinal;
    EngineKeeps(st, a);
    KeptFollows(st, st.tasks, b');
    LedgerParts(st.tasks, b);
    hide SendingFollows;
    SendsLedger(st.tasks, st.tasks, b, b', 0, 0);
  }

  lemma LedgerParts(tasks: map<Ref, Task>, b: Book)
    requires Ledger(tasks, b)
    ensures forall u :: u in tasks ==> PullFits(tasks, b, u)
  {
  }

  lemma RespondLedger(st: State, t: Ref)
    requires Refs(st) && Ledger(st.tasks, st.book) && t in st.tasks && (st.tasks[t].pc.Responding? || st.tasks[t].pc.AbortAcked?)
    ensures Ledger(ApplyRespond(st, t).tasks, st.book)
  {
    hide SessionsOrderly, EventsFinal, SendingExact, KeysUnique, LedgerBut;
    var tasks' := st.tasks - {t};
    LedgerAsBut(st.tasks, st.book, st.next);
    LedgerParts(st.tasks, st.book);
    forall u | u in tasks' ensures PullFits(tasks', st.book, u) { assert PullFits(st.tasks, st.book, u); }
    assert PullsApart(tasks');
    hide PullsApart, PullFits;
    TasksLedger(st.tasks, tasks', st.book, st.next);
    LedgerAsBut(tasks', st.book, st.next);
  }

  lemma DispatchKeys(st: State, skey: SessionKey, nonce: Name, request: Request)
    requires Refs(st) && KeysUnique(st.tasks, st.book) && PullsApart(st.tasks) && (request.OpenRequest? ==> FreshKey(st, skey))
    ensures var tasks' := ApplyDispatch(st, skey, nonce, request).tasks;
      KeysUnique(tasks', st.book) && PullsApart(tasks') && Polled(tasks') == Polled(st.tasks)
  {
    hide KeysUnique, PullsApart, Polled;
    assert st.next !in st.tasks;
    NewTaskKeys(st, NewTask(skey, nonce, request));
    NewTaskApart(st.tasks, st.next, NewTask(skey, nonce, request));
  }

  lemma NewTaskApart(tasks: map<Ref, Task>, next: Ref, task: Task)
    requires next !in tasks && PullsApart(tasks) && (task.pc.OpenNew? || task.pc.PullNew? || task.pc.AbortNew?)
    ensures PullsApart(tasks[next := task]) && Polled(tasks[next := task]) == Polled(tasks)
  {
    var tasks' := tasks[next := task];
    forall s | s in Polled(tasks) ensures s in Polled(tasks') {
      var u :| u in tasks && tasks[u].pc.OpenPolling? && tasks[u].pc.send == s;
      assert tasks'[u].pc.OpenPolling? && tasks'[u].pc.send == s;
    }
  }

  lemma DispatchLedger(st: State, skey: SessionKey, nonce: Name, request: Request)
    requires Refs(st) && Ledger(st.tasks, st.book) && (request.OpenRequest? ==> FreshKey(st, skey))
    ensures Ledger(ApplyDispatch(st, skey, nonce, request).tasks, st.book)
  {
    hide PullsApart, EventsFinal, SendingExact, KeysUnique;
    var b, tasks, tasks' := st.book, st.tasks, ApplyDispatch(st, skey, nonce, request).tasks;
    assert st.next !in tasks;
    DispatchKeys(st, skey, nonce, request);
    LedgerParts(tasks, b);
    forall u | u in tasks' ensures PullFits(tasks', b, u) { if u != st.next { assert PullFits(tasks, b, u); } }
    hide PullFits, SessionsOrderly;
    KeptFollows(st, tasks', b);
    hide SendingFollows;
    SendsLedger(tasks, tasks', b, b, 0, 0);
  }

  /** One handler moves; it neither opens nor counts afterwards. */
  lemma LeaveLedger(tasks: map<Ref, Task>, b: Book, t: Ref, pc: Handler, o: Ref)
    requires LedgerBut(tasks, b, o) && t in tasks && !tasks[t].pc.OpenJob?
    requires pc.Responding? || pc.AbortAcked? || pc.AbortDraining?
    ensures LedgerBut(tasks[t := tasks[t].(pc := pc)], b, o)
  {
    var tasks' := tasks[t := tasks[t].(pc := pc)];
    LeavePulls(tasks, b, t, pc, o);
    hide PullsApart, PullFits, LedgerBut;
    PolledMoves(tasks, t, pc, {});
    hide Polled;
    TasksLedger(tasks, tasks', b, o);
  }

  lemma LeavePulls(tasks: map<Ref, Task>, b: Book, t: Ref, pc: Handler, o: Ref)
    requires LedgerBut(tasks, b, o) && t in tasks && (pc.Responding? || pc.AbortAcked? || pc.AbortDraining?)
    ensures var tasks' := tasks[t := tasks[t].(pc := pc)]; PullsApart(tasks') && forall u :: u in tasks' ==> PullFits(tasks', b, u)
  {
    hide EventsFinal, SendingExact, KeysUnique, Lingers, SessionFits, FinishedOnce;
    var tasks' := tasks[t := tasks[t].(pc := pc)];
    forall u | u in tasks' ensures PullFits(tasks', b, u) { assert PullFits(tasks, b, u); }
  }

  // ----- Opens -----

  lemma OpenMoves(tasks: map<Ref, Task>, b: Book, t: Ref, pc: Handler)
    requires KeysUnique(tasks, b) && PullsApart(tasks) && (forall u :: u in tasks ==> PullFits(tasks, b, u))
    requires t in tasks && tasks[t].IsOpening() && (pc.OpenPolling? || pc.OpenJob? || pc.Responding?)
    ensures var tasks' := tasks[t := tasks[t].(pc := pc)];
      KeysUnique(tasks', b) && PullsApart(tasks') && (forall u :: u in tasks' ==> PullFits(tasks', b, u))
  {
    var tasks' := tasks[t := tasks[t].(pc := pc)];
    forall u | u in tasks' ensures PullFits(tasks', b, u) { assert PullFits(tasks, b, u); }
  }

  lemma PolledMoves(tasks: map<Ref, Task>, t: Ref, pc: Handler, extra: set<Ref>)
    requires t in tasks && (pc.OpenPolling? ==> pc.send in extra)
    ensures Polled(tasks[t := tasks[t].(pc := pc)]) <= Polled(tasks) + extra
  {
    var tasks' := tasks[t := tasks[t].(pc := pc)];
    forall s | s in Polled(tasks') ensures s in Polled(tasks) + extra {
      var u :| u in tasks' && tasks'[u].pc.OpenPolling? && tasks'[u].pc.send == s;
      if u != t { assert tasks[u].pc.OpenPolling? && tasks[u].pc.send == s; }
    }
  }

  lemma BeginOpenLedger(st: State, t: Ref)
    requires Refs(st) && Ledger(st.tasks, st.book) && t in st.tasks && st.tasks[t].pc.OpenNew?
    ensures Ledger(BeginOpen(st, t).tasks, BeginOpen(st, t).book)
  {
    hide PullsApart, PullFits, EventsFinal, SendingExact, KeysUnique, Polled, SessionsOrderly;
    var st' := BeginOpen(st, t);
    var b, b', tid := st.book, st'.book, st.tasks[t].skey.tid;
    LedgerParts(st.tasks, b);
    OpenMoves(st.tasks, b, t, st'.tasks[t].pc);
    var s := st'.tasks[t].pc.send;
    PolledMoves(st.tasks, t, st'.tasks[t].pc, {s});
    if tid in b.meta {
      AttachFinal(b, tid, Polled(st.tasks));
      SameSendsFinal(b, b', Polled(st.tasks) + {s}, Polled(st'.tasks));
    } else {
      NewSendFinal(b, st.next, tid, None, Polled(st.tasks), Polled(st'.tasks));
    }
    KeptFollows(st, st'.tasks, b');
    hide SendingFollows;
    SendsLedger(st.tasks, st'.tasks, b, b', 0, 0);
  }

  lemma IsPolled(tasks: map<Ref, Task>, t: Ref)
    requires t in tasks && tasks[t].pc.OpenPolling?
    ensures tasks[t].pc.send in Polled(tasks)
  {
  }

  lemma OpenPollFinal(st: State, t: Ref, polled': set<Ref>)
    requires Refs(st) && EventsFinal(st.book, Polled(st.tasks)) && RanksPositive(st.tasks)
    requires Enabled(st, OpenPoll(t)) && Honest(st, OpenPoll(t)) && polled' <= Polled(st.tasks)
    ensures EventsFinal(ApplyOpenPoll(st, t).book, polled')
  {
    hide EventsFinal, Polled;
    var b, b' := st.book, ApplyOpenPoll(st, t).book;
    var polled, s, ranks := Polled(st.tasks), st.tasks[t].pc.send, st.tasks[t].pc.ranks;
    IsPolled(st.tasks, t);
    if b.sends[s].ready {
      var b1 := PutSend(b, s, Claim(b.sends[s], ranks));
      ClaimFinal(b, s, ranks, polled);
      assert b1.sends[s].sending > 0 by { SendNonNegative(b, s, polled); }
      FinishFinal(b1, s, polled);
      SameSendsFinal(b', b', polled, polled');
    } else if b'.meta == b.meta {
      SameSendsFinal(b, b', polled, polled');
    } else {
      UnindexFinal(b, b', b.sends[s].tid, polled);
      SameSendsFinal(b', b', polled, polled');
    }
  }

  lemma SendNonNegative(b: Book, s: Ref, polled: set<Ref>)
    requires EventsFinal(b, polled) && s in b.sends
    ensures b.sends[s].sending >= 0
  {
    assert SendFits(b, polled, s);
  }

  lemma OpenPollLedger(st: State, t: Ref)
    requires Refs(st) && Ledger(st.tasks, st.book) && RanksPositive(st.tasks)
    requires Enabled(st, OpenPoll(t)) && Honest(st, OpenPoll(t))
    ensures Ledger(ApplyOpenPoll(st, t).tasks, ApplyOpenPoll(st, t).book)
  {
    hide PullsApart, PullFits, EventsFinal, SendingExact, KeysUnique, Polled, SessionsOrderly, SendingFollows;
    var st' := ApplyOpenPoll(st, t);
    LedgerParts(st.tasks, st.book);
    OpenMoves(st.tasks, st.book, t, st'.tasks[t].pc);
    PolledMoves(st.tasks, t, st'.tasks[t].pc, {st.tasks[t].pc.send});
    IsPolled(st.tasks, t);
    assert st'.tasks == st.tasks[t := st.tasks[t].(pc := st'.tasks[t].pc)];
    OpenPollFinal(st, t, Polled(st'.tasks));
    OpenPollFollows(st, t);
    SendsLedger(st.tasks, st'.tasks, st.book, st'.book, t, st.tasks[t].pc.send);
  }

  lemma OpenStartLedger(st: State, t: Ref)
    requires Refs(st) && Ledger(st.tasks, st.book) && RanksPositive(st.tasks)
    requires Enabled(st, OpenStart(t)) && Honest(st, OpenStart(t))
    ensures Ledger(ApplyOpenStart(st, t).tasks, ApplyOpenStart(st, t).book)
  {
    hide Ledger, TaskRefs;
    BeginOpenRefs(st, t);
    BeginOpenLedger(st, t);
    BeginPolls(st, t);
    hide Refs, ApplyOpenPoll;
    OpenPollLedger(BeginOpen(st, t), t);
  }

  lemma BeginPolls(st: State, t: Ref)
    requires Refs(st) && RanksPositive(st.tasks) && Enabled(st, OpenStart(t)) && Honest(st, OpenStart(t)) && Refs(BeginOpen(st, t))
    ensures var st1 := BeginOpen(st, t); RanksPositive(st1.tasks) && Enabled(st1, OpenPoll(t)) && Honest(st1, OpenPoll(t))
  {
    hide TaskRefs;
  }

  lemma OpenFailLedger(st: State, t: Ref)
    requires Refs(st) && Ledger(st.tasks, st.book) && t in st.tasks && st.tasks[t].pc.OpenJob?
    ensures Ledger(ApplyOpenDone(st, t, false, 0).tasks, ApplyOpenDone(st, t, false, 0).book)
  {
    hide PullsApart, PullFits, EventsFinal, SendingExact, KeysUnique, Polled, SessionsOrderly, SendingFollows;
    var st' := ApplyOpenDone(st, t, false, 0);
    var b, s := st.book, st.tasks[t].pc.send;
    LedgerParts(st.tasks, b);
    OpenMoves(st.tasks, b, t, Responding);
    PolledMoves(st.tasks, t, Responding, {});
    HolderPositive(st.tasks, b, t, s);
    FinishFinal(b, s, Polled(st.tasks));
    SameSendsFinal(st'.book, st'.book, Polled(st.tasks), Polled(st'.tasks));
    ClaimFollows(st.tasks, b, t, Responding, st'.book, s);
    SendsLedger(st.tasks, st'.tasks, b, st'.book, t, s);
  }

  lemma RegisterOrderly(tasks: map<Ref, Task>, b: Book, t: Ref, total: nat)
    requires SessionsOrderly(tasks, b) && t in tasks && tasks[t].pc.OpenJob? && t !in b.sessions && NoPulls(tasks, t)
    requires forall p :: Live(Register(b, t, tasks[t], tasks[t].pc.send, total), p) <==> Live(b, p) || p == t
    ensures SessionsOrderly(tasks[t := tasks[t].(pc := Responding)], Register(b, t, tasks[t], tasks[t].pc.send, total))
  {
    var b' := Register(b, t, tasks[t], tasks[t].pc.send, total);
    var tasks' := tasks[t := tasks[t].(pc := Responding)];
    hide Live;
    forall p | p in b'.sessions ensures SessionFits(b', p) { if p != t { assert SessionFits(b, p); } }
    forall u | u in tasks' ensures PullFits(tasks', b', u) { assert PullFits(tasks, b, u); }
  }

  lemma RegisterLedger(st: State, t: Ref, total: nat)
    requires Refs(st) && Ledger(st.tasks, st.book) && t in st.tasks && st.tasks[t].pc.OpenJob?
    ensures LedgerBut(SetPc(st, t, Responding).tasks, Register(st.book, t, st.tasks[t], st.tasks[t].pc.send, total), t)
    ensures Live(Register(st.book, t, st.tasks[t], st.tasks[t].pc.send, total), t) && NoPulls(SetPc(st, t, Responding).tasks, t)
  {
    hide PullsApart, EventsFinal, SendingExact, KeysUnique, Polled, SessionsOrderly;
    var b' := Register(st.book, t, st.tasks[t], st.tasks[t].pc.send, total);
    var tasks' := SetPc(st, t, Responding).tasks;
    Uncounted(st, t, Responding);
    Uncounted(st, t, st.tasks[t].pc);
    assert NoPulls(st.tasks, t) && NoPulls(tasks', t) by {
      assert SetPc(st, t, st.tasks[t].pc).tasks == st.tasks;
      assert forall u :: u in tasks' && tasks'[u].CountedOn(t) ==> u in Counted(tasks', t);
      assert forall u :: u in st.tasks && st.tasks[u].CountedOn(t) ==> u in Counted(st.tasks, t);
    }
    hide NoPulls, Counted;
    RegisterLive(st.tasks, st.book, t, total);
    RegisterKeys(st.tasks, st.book, t, total);
    RegisterOrderly(st.tasks, st.book, t, total);
    RegisterSending(st.tasks, st.book, t, total);
    PolledMoves(st.tasks, t, Responding, {});
    SameSendsFinal(st.book, b', Polled(st.tasks), Polled(tasks'));
    LedgerParts(st.tasks, st.book);
    OpenMoves(st.tasks, st.book, t, Responding);
    hide Refs;
    forall p | p in b'.sessions && p != t ensures !Lingers(b', p) { assert !Lingers(st.book, p); }
  }

  lemma OpenDoneLedger(st: State, t: Ref, ok: bool, total: nat)
    requires Refs(st) && Ledger(st.tasks, st.book) && t in st.tasks && st.tasks[t].pc.OpenJob?
    ensures Ledger(ApplyOpenDone(st, t, ok, total).tasks, ApplyOpenDone(st, t, ok, total).book)
  {
    var tasks' := SetPc(st, t, Responding).tasks;
    if !ok {
      OpenFailLedger(st, t);
    } else {
      RegisterLedger(st, t, total);
      var b' := Register(st.book, t, st.tasks[t], st.tasks[t].pc.send, total);
      hide LedgerBut, Ledger, BookRefs, NoPulls;
      if total == 0 {
        CompleteLedger(tasks', b', t);
      } else {
        LedgerAsBut(tasks', b', t);
      }
    }
  }

  // ----- Pulls -----

  lemma NoneCounted(tasks: map<Ref, Task>, o: Ref)
    requires |Counted(tasks, o)| == 0
    ensures NoPulls(tasks, o)
  {
    forall t | t in tasks ensures !tasks[t].CountedOn(o) { assert t !in Counted(tasks, o); }
  }

  lemma SomeCounted(tasks: map<Ref, Task>, t: Ref, o: Ref)
    requires t in tasks && tasks[t].CountedOn(o)
    ensures |Counted(tasks, o)| > 0
  {
    assert t in Counted(tasks, o);
  }

  /** A failed or cancelled phase fits every live session. */
  lemma EndPhaseLedger(tasks: map<Ref, Task>, b: Book, o: Ref, phase: Phase)
    requires LedgerBut(tasks, b, o) && Live(b, o) && (phase == Failed || phase == Cancelled)
    ensures LedgerBut(tasks, SetPhase(b, o, phase), o) && Live(SetPhase(b, o, phase), o)
  {
    var x := b.sessions[o].(phase := phase);
    assert SessionFits(b, o);
    PutSessionLive(b, o, x);
    assert SessionFits(PutSession(b, o, x), o);
    forall t | t in tasks && tasks[t].CountedOn(o) ensures tasks[t].pc.chunk in x.pulled && tasks[t].pc.chunk !in x.done {
      assert PullFits(tasks, b, t);
    }
    hide PullFits, SessionFits, LedgerBut, Live;
    PutSessionLedger(tasks, b, o, x);
  }

  /** A chunk handler moves to its next stage. */
  lemma StageLedger(tasks: map<Ref, Task>, b: Book, t: Ref, pc: Handler, o: Ref)
    requires LedgerBut(tasks, b, o) && t in tasks && tasks[t].CountedOn(o)
    requires tasks[t].(pc := pc).CountedOn(o) && pc.chunk == tasks[t].pc.chunk
    ensures LedgerBut(tasks[t := tasks[t].(pc := pc)], b, o)
  {
    var tasks' := tasks[t := tasks[t].(pc := pc)];
    forall u | u in tasks' ensures PullFits(tasks', b, u) { assert PullFits(tasks, b, u); }
    assert PullsApart(tasks');
    JoinClaims(tasks, t, pc);
    hide PullsApart, PullFits, SessionsOrderly, EventsFinal, SendingExact, KeysUnique, SameClaims;
    TasksLedger(tasks, tasks', b, o);
  }

  lemma JoinLedger(tasks: map<Ref, Task>, b: Book, t: Ref, o: Ref)
    requires Ledger(tasks, b) && t in tasks && tasks[t].pc.PullNew? && Live(b, o) && b.sessions[o].phase == Active
    requires tasks[t].pc.chunk < b.sessions[o].total && tasks[t].pc.chunk !in b.sessions[o].pulled
    ensures Ledger(tasks[t := tasks[t].(pc := PullWaiting(tasks[t].pc.chunk, o))],
                   PutSession(b, o, CountPull(b.sessions[o], tasks[t].pc.chunk)))
  {
    hide LedgerBut, Ledger, PullsApart, PullFits, SameClaims;
    var chunk := tasks[t].pc.chunk;
    var x := CountPull(b.sessions[o], chunk);
    var b' := PutSession(b, o, x);
    var tasks' := tasks[t := tasks[t].(pc := PullWaiting(chunk, o))];
    LedgerAsBut(tasks, b, o);
    LedgerFacts(tasks, b, o);
    PutSessionLive(b, o, x);
    assert SessionFits(b', o) && !Lingers(b', o);
    assert forall u :: u in tasks && tasks[u].CountedOn(o) ==> tasks[u].pc.chunk in x.pulled && tasks[u].pc.chunk !in x.done;
    hide SessionFits, Lingers, Live;
    PutSessionLedger(tasks, b, o, x);
    JoinClaims(tasks, t, tasks'[t].pc);
    JoinPulls(tasks, b, t, o);
    TasksLedger(tasks, tasks', b', o);
    LedgerAsBut(tasks', b', o);
  }

  lemma JoinClaims(tasks: map<Ref, Task>, t: Ref, pc: Handler)
    requires t in tasks && !tasks[t].IsOpening() && !tasks[t].(pc := pc).IsOpening()
    ensures SameClaims(tasks, tasks[t := tasks[t].(pc := pc)])
  {
    PolledMoves(tasks, t, pc, {});
  }

  lemma LedgerFacts(tasks: map<Ref, Task>, b: Book, o: Ref)
    requires LedgerBut(tasks, b, o) && o in b.sessions
    ensures SessionFits(b, o) && PullsApart(tasks) && (forall u :: u in tasks ==> PullFits(tasks, b, u))
    ensures Ledger(tasks, b) ==> !Lingers(b, o)
    ensures forall u :: u in tasks && tasks[u].CountedOn(o) ==>
      Live(b, o) && tasks[u].pc.chunk in b.sessions[o].pulled && tasks[u].pc.chunk !in b.sessions[o].done
  {
    forall u | u in tasks && tasks[u].CountedOn(o)
      ensures Live(b, o) && tasks[u].pc.chunk in b.sessions[o].pulled && tasks[u].pc.chunk !in b.sessions[o].done
    {
      assert PullFits(tasks, b, u);
    }
  }

  lemma JoinPulls(tasks: map<Ref, Task>, b: Book, t: Ref, o: Ref)
    requires t in tasks && tasks[t].pc.PullNew? && Live(b, o) && b.sessions[o].done <= b.sessions[o].pulled
    requires tasks[t].pc.chunk !in b.sessions[o].pulled && PullsApart(tasks) && (forall u :: u in tasks ==> PullFits(tasks, b, u))
    ensures var tasks' := tasks[t := tasks[t].(pc := PullWaiting(tasks[t].pc.chunk, o))];
      var b' := PutSession(b, o, CountPull(b.sessions[o], tasks[t].pc.chunk));
      PullsApart(tasks') && (forall u :: u in tasks' ==> PullFits(tasks', b', u))
  {
    var tasks' := tasks[t := tasks[t].(pc := PullWaiting(tasks[t].pc.chunk, o))];
    var b' := PutSession(b, o, CountPull(b.sessions[o], tasks[t].pc.chunk));
    PutSessionLive(b, o, CountPull(b.sessions[o], tasks[t].pc.chunk));
    assert forall u :: u in tasks && tasks[u].CountedOn(o) ==> PullFits(tasks, b, u) && tasks[u].pc.chunk != tasks[t].pc.chunk;
    forall u | u in tasks' ensures PullFits(tasks', b', u) { if u != t { assert PullFits(tasks, b, u); } }
  }

  lemma PullStartLedger(st: State, t: Ref, slotCount: nat)
    requires Good(st, slotCount) && Enabled(st, PullStart(t)) && Honest(st, PullStart(t))
    ensures Ledger(ApplyPullStart(st, t).tasks, ApplyPullStart(st, t).book)
  {
    hide Ledger, LedgerBut, SlotsConserved, OperationsExact, AbortsGuarded;
    var task := st.tasks[t];
    var tasks' := SetPc(st, t, Responding).tasks;
    if task.skey !in st.book.producers {
      LedgerAsBut(st.tasks, st.book, st.next);
      LeaveLedger(st.tasks, st.book, t, Responding, st.next);
      LedgerAsBut(tasks', st.book, st.next);
    } else {
      var o := st.book.producers[task.skey];
      var b := SetPhase(st.book, o, Failed);
      if st.book.sessions[o].phase != Active {
        LedgerAsBut(st.tasks, st.book, o);
        LeaveLedger(st.tasks, st.book, t, Responding, o);
        EndPhaseLedger(tasks', st.book, o, Failed);
        CountedDelta(st.tasks, t, tasks'[t], o);
        if b.sessions[o].inflight == 0 { NoneCounted(tasks', o); }
        SettleLedger(tasks', b, o);
      } else {
        JoinLedger(st.tasks, st.book, t, o);
      }
    }
  }

  lemma FailStageLedger(st: State, t: Ref, pc: Handler, o: Ref, slotCount: nat)
    requires Good(st, slotCount) && t in st.tasks && st.tasks[t].CountedOn(o)
    requires st.tasks[t].(pc := pc).CountedOn(o) && pc.chunk == st.tasks[t].pc.chunk
    ensures o in st.book.sessions && Ledger(SetPc(st, t, pc).tasks, SetPhase(st.book, o, Failed))
    ensures Ledger(SetPc(st, t, pc).tasks, st.book)
  {
    hide Ledger, LedgerBut, SlotsConserved, OperationsExact, AbortsGuarded;
    var tasks' := SetPc(st, t, pc).tasks;
    assert TaskRefs(st.book, st.tasks[t]);
    LedgerAsBut(st.tasks, st.book, o);
    LedgerFacts(st.tasks, st.book, o);
    SomeCounted(st.tasks, t, o);
    StageLedger(st.tasks, st.book, t, pc, o);
    LedgerAsBut(tasks', st.book, o);
    EndPhaseLedger(tasks', st.book, o, Failed);
    LedgerAsBut(tasks', SetPhase(st.book, o, Failed), o);
  }

  lemma PullSlotLedger(st: State, t: Ref, slotCount: nat)
    requires Good(st, slotCount) && Enabled(st, PullSlot(t))
    ensures Ledger(ApplyPullSlot(st, t).tasks, ApplyPullSlot(st, t).book)
  {
    GoodRefs(st, slotCount);
    hide Ledger, Good, BookRefs;
    var PullWaiting(chunk, o) := st.tasks[t].pc;
    FailStageLedger(st, t, PullDraining(chunk, o, st.slots[0]), o, slotCount);
    FailStageLedger(st, t, PullEncoding(chunk, o, st.slots[0]), o, slotCount);
  }

  /** The handler has left; its count is returned and the session settled. */
  lemma UncountLedger(tasks: map<Ref, Task>, b: Book, o: Ref)
    requires LedgerBut(tasks, b, o) && HasSession(b, o) && Live(b, o) && !Completes(b.sessions[o])
    requires o in tasks ==> !tasks[o].IsOpening()
    requires b.sessions[o].inflight - 1 == |Counted(tasks, o)|
    ensures Ledger(tasks, Uncount(b, o))
  {
    hide LedgerBut, Ledger;
    var x := b.sessions[o].(inflight := b.sessions[o].inflight - 1);
    LedgerFacts(tasks, b, o);
    PutSessionLive(b, o, x);
    PutSessionLedger(tasks, b, o, x);
    if x.inflight == 0 { NoneCounted(tasks, o); }
    SettleLedger(tasks, PutSession(b, o, x), o);
  }

  lemma DrainDoneLedger(st: State, t: Ref, slotCount: nat)
    requires Good(st, slotCount) && Enabled(st, DrainDone(t))
    ensures Ledger(ApplyDrainDone(st, t).tasks, ApplyDrainDone(st, t).book)
  {
    hide Ledger, LedgerBut, SlotsConserved, OperationsExact, AbortsGuarded;
    var o := st.tasks[t].pc.session;
    var tasks' := SetPc(st, t, Responding).tasks;
    LedgerAsBut(st.tasks, st.book, o);
    LedgerFacts(st.tasks, st.book, o);
    LeaveLedger(st.tasks, st.book, t, Responding, o);
    CountedDelta(st.tasks, t, tasks'[t], o);
    UncountLedger(tasks', st.book, o);
  }

  lemma {:induction false} BoundedCard(s: set<nat>, n: nat)
    requires forall c :: c in s ==> c < n
    ensures |s| <= n
  {
    if n == 0 {
      assert s == {};
    } else {
      BoundedCard(s - {n - 1}, n - 1);
    }
  }

  /** `total` distinct chunk ids below `total` are all of them. */
  lemma AllChunksDone(done: set<nat>, total: nat, chunk: nat)
    requires (forall c :: c in done ==> c < total) && |done| == total && chunk < total
    ensures chunk in done
  {
    BoundedCard(done + {chunk}, total);
  }

  /** The chunk is counted as done once its handler has left. */
  lemma CountDoneLedger(tasks: map<Ref, Task>, b: Book, t: Ref, o: Ref, chunk: nat)
    requires Ledger(tasks, b) && t in tasks && tasks[t].CountedOn(o) && tasks[t].pc.chunk == chunk && Live(b, o)
    ensures var tasks' := tasks[t := tasks[t].(pc := Responding)];
      var b' := PutSession(b, o, CountDone(b.sessions[o], chunk));
      LedgerBut(tasks', b', o) && Live(b', o) && (Completes(b'.sessions[o]) ==> NoPulls(tasks', o))
  {
    hide Ledger, LedgerBut, PullsApart;
    var tasks' := tasks[t := tasks[t].(pc := Responding)];
    var x := CountDone(b.sessions[o], chunk);
    var b' := PutSession(b, o, x);
    LedgerAsBut(tasks, b, o);
    LedgerFacts(tasks, b, o);
    LeaveLedger(tasks, b, t, Responding, o);
    PutSessionLive(b, o, x);
    assert SessionFits(b', o);
    OthersApart(tasks, t, o, chunk);
    LedgerFacts(tasks', b, o);
    PutSessionLedger(tasks', b, o, x);
    if Completes(x) {
      forall u | u in tasks' ensures !tasks'[u].CountedOn(o) {
        if tasks'[u].CountedOn(o) {
          AllChunksDone(x.done, x.total, tasks'[u].pc.chunk);
        }
      }
    }
  }

  lemma OthersApart(tasks: map<Ref, Task>, t: Ref, o: Ref, chunk: nat)
    requires PullsApart(tasks) && t in tasks && tasks[t].CountedOn(o) && tasks[t].pc.chunk == chunk
    ensures var tasks' := tasks[t := tasks[t].(pc := Responding)];
      forall u :: u in tasks' && tasks'[u].CountedOn(o) ==> tasks'[u].pc.chunk != chunk
  {
  }

  lemma CompletedUncount(tasks: map<Ref, Task>, b: Book, o: Ref)
    requires Ledger(tasks, b) && HasSession(b, o) && !Live(b, o) && b.sessions[o].phase == Complete && NoPulls(tasks, o)
    ensures Ledger(tasks, Uncount(b, o))
  {
    hide Ledger, LedgerBut;
    var x := b.sessions[o].(inflight := b.sessions[o].inflight - 1);
    LedgerAsBut(tasks, b, o);
    LedgerFacts(tasks, b, o);
    PutSessionLive(b, o, x);
    PutSessionLedger(tasks, b, o, x);
    LedgerAsBut(tasks, PutSession(b, o, x), o);
  }

  /** The done chunk completes its session, or its count is returned. */
  lemma FinishChunkLedger(tasks: map<Ref, Task>, b: Book, o: Ref)
    requires LedgerBut(tasks, b, o) && HasSession(b, o) && Live(b, o) && (o in tasks ==> !tasks[o].IsOpening())
    requires Completes(b.sessions[o]) ==> NoPulls(tasks, o)
    requires b.sessions[o].inflight - 1 == |Counted(tasks, o)|
    ensures Ledger(tasks, if Completes(b.sessions[o]) then Uncount(CompleteSession(b, o), o) else Uncount(b, o)) && HasSession(CompleteSession(b, o), o)
  {
    hide Ledger, LedgerBut, NoPulls, Counted;
    CompleteRetires(b, o);
    RetiredGone(b, CompleteSession(b, o), o);
    if Completes(b.sessions[o]) {
      CompleteLedger(tasks, b, o);
      CompletedUncount(tasks, CompleteSession(b, o), o);
    } else {
      UncountLedger(tasks, b, o);
    }
  }

  lemma EncodeOkLedger(st: State, t: Ref, slotCount: nat)
    requires Good(st, slotCount) && Enabled(st, EncodeDone(t, true))
    ensures Ledger(ApplyEncodeDone(st, t, true).tasks, ApplyEncodeDone(st, t, true).book)
  {
    hide Ledger, LedgerBut, SlotsConserved, OperationsExact, AbortsGuarded, ClosedBounded, NoPulls, Uncount, CompleteSession;
    var PullEncoding(chunk, o, slot) := st.tasks[t].pc;
    var tasks' := SetPc(st, t, Responding).tasks;
    LedgerAsBut(st.tasks, st.book, o);
    LedgerFacts(st.tasks, st.book, o);
    CountDoneLedger(st.tasks, st.book, t, o, chunk);
    CountedDelta(st.tasks, t, tasks'[t], o);
    hide Counted, RanksPositive;
    FinishChunkLedger(tasks', PutSession(st.book, o, CountDone(st.book.sessions[o], chunk)), o);
  }

  lemma EncodeDoneLedger(st: State, t: Ref, ok: bool, slotCount: nat)
    requires Good(st, slotCount) && Enabled(st, EncodeDone(t, ok))
    ensures Ledger(ApplyEncodeDone(st, t, ok).tasks, ApplyEncodeDone(st, t, ok).book)
  {
    if ok {
      EncodeOkLedger(st, t, slotCount);
    } else {
      var PullEncoding(chunk, o, slot) := st.tasks[t].pc;
      FailStageLedger(st, t, PullDraining(chunk, o, slot), o, slotCount);
      hide Ledger, Good, Refs;
    }
  }

  // ----- Aborts -----

  lemma CancelLedger(tasks: map<Ref, Task>, b: Book, o: Ref)
    requires Ledger(tasks, b) && InflightExact(tasks, b.sessions) && HasSession(b, o) && Live(b, o)
    requires o in tasks ==> !tasks[o].IsOpening()
    ensures Ledger(tasks, CancelSession(b, o)) && InflightExact(tasks, CancelSession(b, o).sessions)
    ensures forall p :: p != o && Live(b, p) ==> Live(CancelSession(b, o), p)
  {
    LedgerLive(tasks, b, o);
    hide Ledger, LedgerBut;
    LedgerAsBut(tasks, b, o);
    EndPhaseLedger(tasks, b, o, Cancelled);
    if b.sessions[o].inflight == 0 { NoneCounted(tasks, o); }
    SettleLedger(tasks, SetPhase(b, o, Cancelled), o);
    CancelCloses(b, o);
    forall p | p in b.sessions ensures CancelSession(b, o).sessions[p].inflight == b.sessions[p].inflight {
      assert SameButPhase(b.sessions[p], CancelSession(b, o).sessions[p]);
    }
  }

  /** Cancelling one session leaves the others registered. */
  lemma LedgerLive(tasks: map<Ref, Task>, b: Book, o: Ref)
    requires Ledger(tasks, b) && HasSession(b, o) && Live(b, o)
    ensures forall p :: p != o && Live(b, p) ==> Live(CancelSession(b, o), p)
  {
    hide SessionsOrderly, EventsFinal, SendingExact, PullsApart;
    var b1 := SetPhase(b, o, Cancelled);
    PutSessionLive(b, o, b.sessions[o].(phase := Cancelled));
    assert KeysUnique(tasks, b1);
    if b1.sessions[o].inflight == 0 {
      DiscardRetires(b1, o);
      RetiredLive(tasks, b1, Discard(b1, o), o);
    }
  }

  ghost predicate Cancellable(tasks: map<Ref, Task>, b: Book, order: seq<Ref>) {
    && (forall i, j :: 0 <= i < j < |order| ==> order[i] != order[j])
    && (forall i :: 0 <= i < |order| ==>
          HasSession(b, order[i]) && Live(b, order[i]) && (order[i] in tasks ==> !tasks[order[i]].IsOpening()))
  }

  lemma CancelTail(tasks: map<Ref, Task>, b: Book, order: seq<Ref>)
    requires Cancellable(tasks, b, order) && order != []
    requires forall p :: p != order[0] && Live(b, p) ==> Live(CancelSession(b, order[0]), p)
    ensures Cancellable(tasks, CancelSession(b, order[0]), order[1..])
  {
    CancelCloses(b, order[0]);
    var b1 := CancelSession(b, order[0]);
    hide CancelSession;
    forall i | 0 <= i < |order[1..]| ensures HasSession(b1, order[1..][i]) && Live(b1, order[1..][i]) {
      assert order[1..][i] == order[i + 1] && HasSession(b, order[i + 1]);
      assert SameButPhase(b.sessions[order[i + 1]], b1.sessions[order[i + 1]]);
    }
  }

  lemma {:induction false} CancelAllLedger(tasks: map<Ref, Task>, b: Book, order: seq<Ref>)
    requires Ledger(tasks, b) && InflightExact(tasks, b.sessions) && Cancellable(tasks, b, order)
    ensures HasSessions(b, order) && Ledger(tasks, CancelAll(b, order))
    decreases |order|
  {
    if order != [] {
      CancelLedger(tasks, b, order[0]);
      CancelTail(tasks, b, order);
      hide Ledger, InflightExact, CancelSession, Live;
      CancelAllLedger(tasks, CancelSession(b, order[0]), order[1..]);
    }
  }

  lemma AbortStartLedger(st: State, t: Ref, target: Option<Ref>, slotCount: nat)
    requires Refs(st) && t in st.tasks && (target.Some? ==> HasSession(st.book, target.value))
    requires Good(st, slotCount) && Enabled(st, AbortStart(t, target))
    ensures Ledger(ApplyAbortStart(st, t, target).tasks, ApplyAbortStart(st, t, target).book)
  {
    hide Ledger, LedgerBut, SlotsConserved, OperationsExact, AbortsGuarded, InflightExact;
    var st' := ApplyAbortStart(st, t, target);
    if target.Some? && st.book.sessions[target.value].nonce == st.tasks[t].nonce {
      CancelLedger(st.tasks, st.book, target.value);
    }
    NextUnused(st);
    LedgerAsBut(st.tasks, st'.book, st.next);
    LeaveLedger(st.tasks, st'.book, t, st'.tasks[t].pc, st.next);
    LedgerAsBut(st'.tasks, st'.book, st.next);
    AbortStartGood(st, t, target);
  }

  lemma AbortEndLedger(st: State, t: Ref, order: seq<Ref>, clean: bool, slotCount: nat)
    requires Good(st, slotCount) && t in st.tasks && st.tasks[t].pc.AbortDraining? && ValidOrder(st.book, st.tasks[t].Key(), order)
    ensures HasSessions(st.book, order) && Ledger(ApplyAbortEnd(st, t, order, clean).tasks, ApplyAbortEnd(st, t, order, clean).book)
  {
    hide Ledger, LedgerBut, SlotsConserved, OperationsExact, AbortsGuarded, InflightExact;
    CancelAllLedger(st.tasks, st.book, order);
    var st' := ApplyAbortEnd(st, t, order, clean);
    LedgerAsBut(st.tasks, st'.book, st.next);
    LeaveLedger(st.tasks, st'.book, t, AbortAcked(clean), st.next);
    LedgerAsBut(st'.tasks, st'.book, st.next);
    AbortEndGood(st.book, st.tasks[t].Key(), order, st.next);
  }

  // ----- Runs -----

  lemma RanksStep(st: State, a: Action)
    requires Refs(st) && Enabled(st, a) && RanksPositive(st.tasks)
    ensures RanksPositive(Apply(st, a).tasks)
  {
    TasksStep(st, a);
    assert a.Dispatch? && a.request.OpenRequest? ==> a.request.ranks > 0;
    hide Apply, Refs, Enabled;
  }

  lemma StepLedger(st: State, a: Action, slotCount: nat)
    requires Good(st, slotCount) && Enabled(st, a) && Honest(st, a)
    ensures Ledger(Apply(st, a).tasks, Apply(st, a).book)
  {
    hide SlotsConserved, OperationsExact, AbortsGuarded, InflightExact, ClosedBounded, BookRefs, Ledger, RanksPositive;
    match a
    case Tick(_) =>
    case Announce(_, _) => EngineLedger(st, a);
    case Publish(_, _) => EngineLedger(st, a);
    case Drop(_) => EngineLedger(st, a);
    case Sweep(_) => EngineLedger(st, a);
    case Dispatch(skey, nonce, request) => DispatchLedger(st, skey, nonce, request);
    case OpenStart(t) => OpenStartLedger(st, t);
    case OpenPoll(t) => OpenPollLedger(st, t);
    case OpenDone(t, ok, total) => OpenDoneLedger(st, t, ok, total);
    case PullStart(t) => PullStartLedger(st, t, slotCount);
    case PullSlot(t) => PullSlotLedger(st, t, slotCount);
    case EncodeDone(t, ok) => EncodeDoneLedger(st, t, ok, slotCount);
    case DrainDone(t) => DrainDoneLedger(st, t, slotCount);
    case AbortStart(t, target) =>
      if target.Some? { TargetHasSession(st, t, target); }
      AbortStartLedger(st, t, target, slotCount);
    case AbortDrained(t, order) => AbortEndLedger(st, t, order, true, slotCount);
    case AbortTimedOut(t, order) => AbortEndLedger(st, t, order, false, slotCount);
    case Respond(t) => RespondLedger(st, t);
  }

  lemma StepGood(st: State, a: Action, slotCount: nat)
    requires Good(st, slotCount) && Enabled(st, a) && Honest(st, a)
    ensures Good(Apply(st, a), slotCount)
  {
    hide Base, Ledger, RanksPositive, Enabled, Honest, Apply, Refs;
    StepLedger(st, a, slotCount);
    GoodRefs(st, slotCount);
    RanksStep(st, a);
    StepBase(st, a, slotCount);
  }

  lemma GoodRefs(st: State, slotCount: nat)
    requires Good(st, slotCount)
    ensures Refs(st)
  {
  }

  ghost predicate IsHonestRun(states: seq<State>, acts: seq<Action>, slotCount: nat) {
    IsRun(states, acts, slotCount) && forall i :: 0 <= i < |acts| ==> Honest(states[i], acts[i])
  }

  lemma InitGood(slotCount: nat)
    ensures Good(Init(slotCount), slotCount)
  {
    InitBase(slotCount);
    hide Base;
  }

  lemma {:induction false} RunGood(states: seq<State>, acts: seq<Action>, slotCount: nat, i: nat)
    requires IsHonestRun(states, acts, slotCount) && i < |states|
    ensures Good(states[i], slotCount)
  {
    hide Good, Refs, Enabled, Honest, Apply;
    if i == 0 {
      InitGood(slotCount);
    } else {
      RunGood(states, acts, slotCount, i - 1);
      StepGood(states[i - 1], acts[i - 1], slotCount);
    }
  }

  /** What honesty adds to the accounts: claims never exceed `need_send`, and a session
      leaves the index as soon as its last chunk is done or its last handler has left. */
  lemma ClaimsWithinNeed(states: seq<State>, acts: seq<Action>, slotCount: nat, i: nat)
    requires IsHonestRun(states, acts, slotCount) && i < |states|
    ensures var b := states[i].book;
      && (forall s :: s in b.sends ==> 0 <= b.sends[s].sending && b.sends[s].sending + b.sends[s].sent <= b.sends[s].needSend)
      && (forall o :: Live(b, o) ==> !Lingers(b, o))
  {
    RunGood(states, acts, slotCount, i);
    var st := states[i];
    hide Base;
    forall s | s in st.book.sends ensures 0 <= st.book.sends[s].sending && st.book.sends[s].sending + st.book.sends[s].sent <= st.book.sends[s].needSend {
      assert SendFits(st.book, Polled(st.tasks), s);
    }
  }

  /** Nothing of a transfer is live: no session, no open job, no encode job. */
  ghost predicate Quiet(st: State, tid: Name) {
    && (forall o :: Live(st.book, o) ==> st.book.sessions[o].skey.tid != tid)
    && (forall t :: t in st.tasks && st.tasks[t].HasJob() ==> st.tasks[t].skey.tid != tid)
  }

  lemma FreedUnheld(tasks: map<Ref, Task>, b: Book, t: Ref, s: Ref)
    requires Ledger(tasks, b) && s in b.sends && Freed(b, b.sends[s].tid)
    ensures !Holds(tasks, b, t, s)
  {
    hide KeysUnique, PullsApart, SessionsOrderly, Freed;
    assert SendFits(b, Polled(tasks), s);
    if Holds(tasks, b, t, s) {
      HolderPositive(tasks, b, t, s);
    }
  }

  lemma FreedNoSession(st: State, tid: Name, o: Ref)
    requires Refs(st) && Ledger(st.tasks, st.book) && Freed(st.book, tid) && Live(st.book, o)
    ensures st.book.sessions[o].skey.tid != tid
  {
    hide Ledger, Freed, TaskRefs;
    if st.book.sessions[o].skey.tid == tid {
      FreedUnheld(st.tasks, st.book, o, st.book.sessions[o].send);
    }
  }

  lemma FreedNoJob(st: State, tid: Name, t: Ref)
    requires Refs(st) && Ledger(st.tasks, st.book) && Freed(st.book, tid) && t in st.tasks && st.tasks[t].HasJob()
    ensures st.tasks[t].skey.tid != tid
  {
    hide Ledger, Freed, BookRefs;
    LedgerParts(st.tasks, st.book);
    assert TaskRefs(st.book, st.tasks[t]);
    if st.tasks[t].pc.OpenJob? {
      if st.tasks[t].skey.tid == tid { FreedUnheld(st.tasks, st.book, t, st.tasks[t].pc.send); }
    } else {
      assert PullFits(st.tasks, st.book, t) && st.tasks[t].CountedOn(st.tasks[t].pc.session);
      FreedNoSession(st, tid, st.tasks[t].pc.session);
    }
  }

  lemma FreedIsQuiet(st: State, slotCount: nat, tid: Name)
    requires Good(st, slotCount) && Freed(st.book, tid)
    ensures Quiet(st, tid)
  {
    GoodRefs(st, slotCount);
    hide Ledger, Freed, Refs, Base, Live;
    forall o | Live(st.book, o) ensures o in st.book.sessions && st.book.sessions[o].skey.tid != tid { FreedNoSession(st, tid, o); }
    forall t | t in st.tasks && st.tasks[t].HasJob() ensures st.tasks[t].skey.tid != tid { FreedNoJob(st, tid, t); }
  }

  /** Completion events are never withdrawn. */
  lemma EventsGrow(st: State, a: Action)
    requires Refs(st) && Enabled(st, a)
    ensures st.book.events <= Apply(st, a).book.events
  {
    hide BookRefs, TaskRefs, CancelAll, CancelSession, Uncount, CompleteSession, FinishSend, Settle, Discard;
    if a.OpenStart? {
      StartEventsGrow(st, a.t);
    } else if a.OpenPoll? || a.OpenDone? {
      OpenEventsGrow(st, a);
    } else if a.PullStart? || a.PullSlot? || a.EncodeDone? || a.DrainDone? {
      PullEventsGrow(st, a);
    }
  }

  lemma StartEventsGrow(st: State, t: Ref)
    requires Refs(st) && Enabled(st, OpenStart(t))
    ensures st.book.events <= Apply(st, OpenStart(t)).book.events
  {
    BeginOpenRefs(st, t);
    OpenEventsGrow(BeginOpen(st, t), OpenPoll(t));
    hide Refs, ApplyOpenPoll;
  }

  lemma OpenEventsGrow(st: State, a: Action)
    requires Refs(st) && Enabled(st, a) && (a.OpenPoll? || a.OpenDone?)
    ensures st.book.events <= Apply(st, a).book.events
  {
    hide BookRefs, CompleteSession, FinishSend;
  }

  lemma PullEventsGrow(st: State, a: Action)
    requires Refs(st) && Enabled(st, a) && (a.PullStart? || a.PullSlot? || a.EncodeDone? || a.DrainDone?)
    ensures st.book.events <= Apply(st, a).book.events
  {
    hide BookRefs, Uncount, CompleteSession, Settle;
  }

  lemma {:induction false} FreedStays(states: seq<State>, acts: seq<Action>, slotCount: nat, i: nat, j: nat)
    requires IsRun(states, acts, slotCount) && i <= j < |states|
    ensures states[i].book.events <= states[j].book.events
    decreases j - i
  {
    hide Refs, Enabled, Apply;
    if i < j {
      FreedStays(states, acts, slotCount, i, j - 1);
      EventsGrow(states[j - 1], acts[j - 1]);
    }
  }

  predicate FullySent(e: SendState) {
    e.needSend > 0 && e.sent == e.needSend
  }

  /** Freeing is safe.  In every honest run a transfer gets at most one completion
      event; from the moment it is emitted no session of the transfer is live and
      no open or encode job on its blocks is outstanding, then and in every later
      state; and a transfer whose needed sends have all finished has its event. */
  lemma FreeingIsSafe(states: seq<State>, acts: seq<Action>, slotCount: nat, i: nat, j: nat, tid: Name)
    requires IsHonestRun(states, acts, slotCount) && i <= j < |states|
    ensures forall p, q :: 0 <= p < q < |states[j].book.events| ==> states[j].book.events[p].tid != states[j].book.events[q].tid
    ensures Freed(states[i].book, tid) ==> Quiet(states[j], tid)
    ensures forall s :: s in states[j].book.sends && FullySent(states[j].book.sends[s]) ==> Freed(states[j].book, states[j].book.sends[s].tid)
  {
    RunGood(states, acts, slotCount, j);
    FreedStays(states, acts, slotCount, i, j);
    if Freed(states[i].book, tid) {
      assert Freed(states[j].book, tid) by {
        var k :| 0 <= k < |states[i].book.events| && states[i].book.events[k].tid == tid;
        assert states[j].book.events[k] == states[i].book.events[k];
      }
      FreedIsQuiet(states[j], slotCount, tid);
    }
    var b := states[j].book;
    hide IsRun, Quiet;
    forall s | s in b.sends && FullySent(b.sends[s]) ensures Freed(b, b.sends[s].tid) {
      assert SendFits(b, Polled(states[j].tasks), s);
    }
  }
}
