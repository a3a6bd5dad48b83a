/** What the engine is told.  Every completion event names the request that the engine
    itself announced for the transfer; it says "sending" exactly when the sends finished
    and "sending_expired" exactly when a sweep found the announcement 480 seconds old. */
module SessionEvents {
  import opened Wrappers
  import opened SessionModel
  import opened SessionAbort
  import opened SessionAccounting
  import opened SessionFreeing

  // ----- Bookkeeping that finishes sends -----

  /** The send state as announced, whatever its counters. */
  ghost predicate SameAnnouncement(e: SendState, e': SendState) {
    e'.tid == e.tid && e'.preq == e.preq && e'.ready == e.ready && e'.expire == e.expire
  }

  /** Counters move only by finishing ready sends: a claim returned is a send counted. */
  ghost predicate CountersMove(e: SendState, e': SendState) {
    && SameAnnouncement(e, e') && e'.needSend == e.needSend && e'.sent >= e.sent
    && e'.sent + e'.sending == e.sent + e.sending && (e'.sent > e.sent ==> e.ready)
  }

  /** The event of a send that has just been finished for the last time needed. */
  ghost predicate Reports(b: Book, b': Book, x: FinalEvent, s: Ref) {
    && s in b.sends && s in b'.sends && x == FinalEvent(Sending, b.sends[s].tid, b.sends[s].preq)
    && b'.sends[s].sent > b.sends[s].sent && b'.sends[s].sent >= b'.sends[s].needSend
  }

  ghost predicate Reported(b: Book, b': Book, x: FinalEvent) {
    exists s :: Reports(b, b', x, s)
  }

  /** `b'` is `b` after sends were finished and sessions closed. */
  ghost predicate Finishing(b: Book, b': Book) {
    && b'.sends.Keys == b.sends.Keys && b'.sessions.Keys == b.sessions.Keys
    && (forall s :: s in b.sends ==> CountersMove(b.sends[s], b'.sends[s]))
    && (forall o :: o in b.sessions ==> b'.sessions[o].send == b.sessions[o].send)
    && b'.meta.Keys <= b.meta.Keys && b.events <= b'.events
    && (forall p :: |b.events| <= p < |b'.events| ==> Reported(b, b', b'.events[p]))
  }

  ghost predicate SessionsReady(b: Book) {
    forall o :: o in b.sessions ==> b.sessions[o].send in b.sends && b.sends[b.sessions[o].send].ready
  }

  lemma FinishingReady(b: Book, b': Book)
    requires Finishing(b, b') && SessionsReady(b)
    ensures SessionsReady(b')
  {
    hide Reported;
  }

  lemma FinishingTrans(b: Book, b1: Book, b2: Book)
    requires Finishing(b, b1) && Finishing(b1, b2)
    ensures Finishing(b, b2)
  {
    forall p | |b.events| <= p < |b2.events| ensures Reported(b, b2, b2.events[p]) {
      if p < |b1.events| {
        var s :| Reports(b, b1, b1.events[p], s);
        assert Reports(b, b2, b2.events[p], s);
      } else {
        var s :| Reports(b1, b2, b2.events[p], s);
        assert Reports(b, b2, b2.events[p], s);
      }
    }
    hide Reported;
  }

  /** Nothing but sessions' own fields, indexes and history changes. */
  lemma SameFinishing(b: Book, b': Book)
    requires b'.sends == b.sends && b'.events == b.events && b'.sessions.Keys == b.sessions.Keys && b'.meta.Keys <= b.meta.Keys
    requires forall o :: o in b.sessions ==> b'.sessions[o].send == b.sessions[o].send
    ensures Finishing(b, b')
  {
  }

  lemma FinishFinishing(b: Book, s: Ref)
    requires s in b.sends && b.sends[s].ready
    ensures Finishing(b, FinishSend(b, s))
  {
    var b' := FinishSend(b, s);
    if |b'.events| > |b.events| { assert Reports(b, b', b'.events[|b.events|], s); }
  }

  /** A cancelled or failed session, or one that is not registered any more. */
  lemma DiscardFinishing(b: Book, o: Ref)
    requires HasSession(b, o) && SessionsReady(b) && b.sessions[o].Over()
    ensures Finishing(b, Discard(b, o))
  {
    hide Finishing, FinishSend, SessionsReady;
    assert b.sends[b.sessions[o].send].ready by { IsReady(b, o); }
    var x := b.sessions[o];
    var b1 := Forget(b, x.skey);
    var b2 := b1.(finishes := b.finishes + multiset{o});
    SameFinishing(b, b1);
    SameFinishing(b, b2);
    FinishFinishing(b2, x.send);
    FinishingTrans(b, b2, FinishSend(b2, x.send));
  }

  lemma IsReady(b: Book, o: Ref)
    requires SessionsReady(b) && o in b.sessions
    ensures b.sessions[o].send in b.sends && b.sends[b.sessions[o].send].ready
  {
  }

  lemma CompleteFinishing(b: Book, o: Ref)
    requires HasSession(b, o) && SessionsReady(b)
    ensures Finishing(b, CompleteSession(b, o))
  {
    hide Finishing, FinishSend, SessionsReady;
    IsReady(b, o);
    var b1 := Forget(b, b.sessions[o].skey);
    var b2 := SetPhase(b1, o, Complete).(finishes := b.finishes + multiset{o});
    SameFinishing(b, b1);
    SameFinishing(b, b2);
    FinishFinishing(b2, b.sessions[o].send);
    FinishingTrans(b, b2, FinishSend(b2, b.sessions[o].send));
  }

  lemma SettleFinishing(b: Book, o: Ref)
    requires HasSession(b, o) && SessionsReady(b)
    ensures Finishing(b, Settle(b, o))
  {
    hide Finishing, SessionsReady, Discard;
    if b.sessions[o].Over() { DiscardFinishing(b, o); }
    SameFinishing(b, b);
  }

  /** A session record changes, its send state does not, and the session may settle. */
  lemma PutSettleFinishing(b: Book, o: Ref, x: Session)
    requires HasSession(b, o) && SessionsReady(b) && x.send == b.sessions[o].send
    ensures Finishing(b, PutSession(b, o, x)) && Finishing(b, Settle(PutSession(b, o, x), o))
  {
    hide Finishing, SessionsReady, Settle;
    var b1 := PutSession(b, o, x);
    SameFinishing(b, b1);
    FinishingReady(b, b1);
    SettleFinishing(b1, o);
    FinishingTrans(b, b1, Settle(b1, o));
  }

  lemma {:induction false} CancelAllFinishing(b: Book, order: seq<Ref>)
    requires HasSessions(b, order) && SessionsReady(b)
    ensures Finishing(b, CancelAll(b, order))
    decreases |order|
  {
    hide Finishing, SessionsReady, CancelSession;
    if order == [] {
      SameFinishing(b, b);
    } else {
      var b1 := CancelSession(b, order[0]);
      CancelFinishing(b, order[0]);
      FinishingReady(b, b1);
      CancelCloses(b, order[0]);
      assert HasSessions(b1, order[1..]) by {
        forall i | 0 <= i < |order[1..]| ensures HasSession(b1, order[1..][i]) { assert HasSession(b, order[i + 1]); }
      }
      CancelAllFinishing(b1, order[1..]);
      FinishingTrans(b, b1, CancelAll(b1, order[1..]));
    }
  }

  lemma CancelFinishing(b: Book, o: Ref)
    requires HasSession(b, o) && SessionsReady(b)
    ensures Finishing(b, CancelSession(b, o))
  {
    hide Finishing, SessionsReady, Settle;
    PutSettleFinishing(b, o, b.sessions[o].(phase := Cancelled));
  }

  // ----- Each action -----

  /** Claimed send states are ready: those of registered sessions and of open jobs. */
  ghost predicate ClaimsReady(st: State) {
    && SessionsReady(st.book)
    && forall t :: t in st.tasks && st.tasks[t].pc.OpenJob? ==>
         st.tasks[t].pc.send in st.book.sends && st.book.sends[st.tasks[t].pc.send].ready
  }

  lemma PullStartFinishing(st: State, t: Ref)
    requires Refs(st) && Enabled(st, PullStart(t)) && SessionsReady(st.book)
    ensures Finishing(st.book, ApplyPullStart(st, t).book)
  {
    hide Finishing, SessionsReady, TaskRefs, Settle;
    var b, skey := st.book, st.tasks[t].skey;
    SameFinishing(b, b);
    if skey in b.producers {
      var o := b.producers[skey];
      PutSettleFinishing(b, o, b.sessions[o].(phase := Failed));
      PutSettleFinishing(b, o, CountPull(b.sessions[o], st.tasks[t].pc.chunk));
    }
  }

  lemma FailFinishing(b: Book, o: Ref)
    requires HasSession(b, o) && SessionsReady(b)
    ensures Finishing(b, SetPhase(b, o, Failed))
  {
    hide Finishing, SessionsReady, Settle;
    PutSettleFinishing(b, o, b.sessions[o].(phase := Failed));
  }

  lemma UncountFinishing(b: Book, o: Ref)
    requires HasSession(b, o) && SessionsReady(b)
    ensures Finishing(b, Uncount(b, o))
  {
    hide Finishing, SessionsReady, Settle;
    PutSettleFinishing(b, o, b.sessions[o].(inflight := b.sessions[o].inflight - 1));
  }

  lemma EncodedFinishing(b: Book, o: Ref, x: Session)
    requires HasSession(b, o) && SessionsReady(b) && x.send == b.sessions[o].send
    ensures var b1 := PutSession(b, o, x);
      && HasSession(b1, o) && HasSession(CompleteSession(b1, o), o)
      && Finishing(b, Uncount(CompleteSession(b1, o), o)) && Finishing(b, Uncount(b1, o))
  {
    hide Finishing, SessionsReady, Uncount, CompleteSession;
    var b1 := PutSession(b, o, x);
    var b2 := CompleteSession(b1, o);
    SameFinishing(b, b1);
    FinishingReady(b, b1);
    UncountFinishing(b1, o);
    FinishingTrans(b, b1, Uncount(b1, o));
    CompleteFinishing(b1, o);
    CompleteCloses(b1, o);
    FinishingReady(b1, b2);
    UncountFinishing(b2, o);
    FinishingTrans(b, b1, b2);
    FinishingTrans(b, b2, Uncount(b2, o));
  }

  lemma EncodeDoneFinishing(st: State, t: Ref, ok: bool)
    requires Refs(st) && Enabled(st, EncodeDone(t, ok)) && SessionsReady(st.book)
    ensures Finishing(st.book, ApplyEncodeDone(st, t, ok).book)
  {
    hide Finishing, SessionsReady, Uncount, CompleteSession;
    var b, o := st.book, st.tasks[t].pc.session;
    FailFinishing(b, o);
    EncodedFinishing(b, o, CountDone(b.sessions[o], st.tasks[t].pc.chunk));
  }

  lemma SessionOfPull(st: State, t: Ref)
    requires Refs(st) && t in st.tasks && (st.tasks[t].pc.PullWaiting? || st.tasks[t].pc.PullDraining?)
    ensures HasSession(st.book, st.tasks[t].pc.session)
  {
    assert TaskRefs(st.book, st.tasks[t]);
  }

  /** Every action but the engine's and the opens'. */
  lemma SessionStep(st: State, a: Action)
    requires Refs(st) && Enabled(st, a) && SessionsReady(st.book)
    requires !a.Announce? && !a.Publish? && !a.Drop? && !a.Sweep? && !a.OpenStart? && !a.OpenPoll? && !a.OpenDone?
    ensures Finishing(st.book, Apply(st, a).book)
  {
    hide Finishing, SessionsReady, BookRefs, Uncount, CompleteSession, CancelAll, CancelSession, ValidTarget, Drained;
    var b := st.book;
    SameFinishing(b, b);
    match a
    case PullStart(t) => PullStartFinishing(st, t);
    case PullSlot(t) => SessionOfPull(st, t); FailFinishing(b, st.tasks[t].pc.session);
    case EncodeDone(t, ok) => EncodeDoneFinishing(st, t, ok);
    case DrainDone(t) => SessionOfPull(st, t); UncountFinishing(b, st.tasks[t].pc.session);
    case AbortStart(t, target) =>
      if target.Some? {
        TargetHasSession(st, t, target);
        CancelFinishing(b, target.value);
      }
    case AbortDrained(t, order) => AbortEndGood(b, st.tasks[t].Key(), order, st.next); CancelAllFinishing(b, order);
    case AbortTimedOut(t, order) => AbortEndGood(b, st.tasks[t].Key(), order, st.next); CancelAllFinishing(b, order);
    case Tick(_) =>
    case Dispatch(_, _, _) =>
    case Respond(_) =>
  }

  // ----- Announcements -----

  /** Send states keep what was announced, new ones are unannounced, and every new event
      reports a finished send. */
  ghost predicate Follows(b: Book, b': Book) {
    && (forall s :: s in b.sends ==> s in b'.sends && SameAnnouncement(b.sends[s], b'.sends[s]))
    && (forall s :: s in b.sends && b'.sends[s].sent > b.sends[s].sent ==> b.sends[s].ready)
    && (forall s :: s in b'.sends && s !in b.sends ==> !b'.sends[s].ready && b'.sends[s].expire.None?)
    && b.events <= b'.events
    && (forall p :: |b.events| <= p < |b'.events| ==> Reported(b, b', b'.events[p]))
  }

  lemma FinishingFollows(b: Book, b1: Book, b2: Book)
    requires Finishing(b1, b2) && b1.events == b.events
    requires forall s :: s in b.sends ==> s in b1.sends && SameAnnouncement(b.sends[s], b1.sends[s]) && b1.sends[s].sent == b.sends[s].sent
    requires forall s :: s in b1.sends && s !in b.sends ==> !b1.sends[s].ready && b1.sends[s].expire.None?
    ensures Follows(b, b2)
  {
    forall p | |b.events| <= p < |b2.events| ensures Reported(b, b2, b2.events[p]) {
      var s :| Reports(b1, b2, b2.events[p], s);
      assert CountersMove(b1.sends[s], b2.sends[s]);
      assert Reports(b, b2, b2.events[p], s);
    }
    hide Reported;
  }

  lemma PollFollows(st: State, t: Ref)
    requires Refs(st) && t in st.tasks && st.tasks[t].pc.OpenPolling?
    ensures Follows(st.book, ApplyOpenPoll(st, t).book)
  {
    var b, s := st.book, st.tasks[t].pc.send;
    assert TaskRefs(b, st.tasks[t]);
    var b1 := PutSend(b, s, Claim(b.sends[s], st.tasks[t].pc.ranks));
    if b.sends[s].ready {
      FinishFinishing(b1, s);
      hide Finishing, Refs, FinishSend;
      SameFinishing(b1, b1);
      FinishingFollows(b, b1, b1);
      FinishingFollows(b, b1, FinishSend(b1, s));
    } else {
      hide Finishing, Refs;
      SameFinishing(b, AbandonOpen(b, s, st.tasks[t].pc.created));
      SameFinishing(b, b);
      FinishingFollows(b, b, AbandonOpen(b, s, st.tasks[t].pc.created));
      FinishingFollows(b, b, b);
    }
  }

  lemma BeginFollows(b: Book, b1: Book, b2: Book)
    requires Follows(b1, b2) && b1.events == b.events
    requires forall s :: s in b.sends ==> s in b1.sends && b1.sends[s] == b.sends[s]
    requires forall s :: s in b1.sends && s !in b.sends ==> !b1.sends[s].ready && b1.sends[s].expire.None?
    ensures Follows(b, b2)
  {
    forall p | |b.events| <= p < |b2.events| ensures Reported(b, b2, b2.events[p]) {
      var s :| Reports(b1, b2, b2.events[p], s);
      assert b1.sends[s].ready;
      assert Reports(b, b2, b2.events[p], s);
    }
    hide Reported;
  }

  lemma StartFollows(st: State, t: Ref)
    requires Refs(st) && Enabled(st, OpenStart(t))
    ensures Follows(st.book, ApplyOpenStart(st, t).book)
  {
    BeginOpenRefs(st, t);
    PollFollows(BeginOpen(st, t), t);
    hide Follows, ApplyOpenPoll, TaskRefs;
    BeginFollows(st.book, BeginOpen(st, t).book, ApplyOpenStart(st, t).book);
  }

  lemma DoneFollows(st: State, t: Ref, ok: bool, total: nat)
    requires Refs(st) && Enabled(st, OpenDone(t, ok, total)) && ClaimsReady(st)
    ensures Follows(st.book, ApplyOpenDone(st, t, ok, total).book)
  {
    hide Finishing, TaskRefs, FinishSend, CompleteSession;
    var b, task := st.book, st.tasks[t];
    var b1 := Register(b, t, task, task.pc.send, total);
    assert SessionsReady(b1);
    hide Refs, SessionsReady;
    FinishFinishing(b, task.pc.send);
    FinishingFollows(b, b, FinishSend(b, task.pc.send));
    SameFinishing(b1, b1);
    FinishingFollows(b, b1, b1);
    CompleteFinishing(b1, t);
    FinishingFollows(b, b1, CompleteSession(b1, t));
  }

  /** Every action but an announcement, a publication and a sweep. */
  lemma StepFollows(st: State, a: Action)
    requires Refs(st) && Enabled(st, a) && ClaimsReady(st) && !a.Announce? && !a.Publish? && !a.Sweep?
    ensures Follows(st.book, Apply(st, a).book)
  {
    hide Finishing, Follows, Refs, SessionsReady;
    if a.OpenStart? {
      StartFollows(st, a.t);
    } else if a.OpenPoll? {
      PollFollows(st, a.t);
    } else if a.OpenDone? {
      DoneFollows(st, a.t, a.ok, a.total);
    } else {
      if a.Drop? { SameFinishing(st.book, Apply(st, a).book); } else { SessionStep(st, a); }
      FinishingFollows(st.book, st.book, Apply(st, a).book);
    }
  }

  /** Ready send states stay ready. */
  ghost predicate ReadyKept(b: Book, b': Book) {
    forall s :: s in b.sends && b.sends[s].ready ==> s in b'.sends && b'.sends[s].ready
  }

  lemma ReadyStep(st: State, a: Action)
    requires Refs(st) && Enabled(st, a) && ClaimsReady(st)
    ensures ReadyKept(st.book, Apply(st, a).book)
  {
    hide SessionsReady, TaskRefs, Finishing;
    if !a.Announce? && !a.Publish? && !a.Sweep? {
      StepFollows(st, a);
      hide Apply, Refs, Enabled;
    }
  }

  /** Where the sessions of an action's outcome come from. */
  ghost predicate SessionsFrom(st: State, a: Action, b': Book) {
    forall o :: o in b'.sessions ==>
      || (o in st.book.sessions && b'.sessions[o].send == st.book.sessions[o].send)
      || (a.OpenDone? && o == a.t && o in st.tasks && st.tasks[o].pc.OpenJob? && b'.sessions[o].send == st.tasks[o].pc.send)
  }

  lemma SessionsStep(st: State, a: Action)
    requires Refs(st) && Enabled(st, a) && ClaimsReady(st)
    ensures SessionsFrom(st, a, Apply(st, a).book)
  {
    hide TaskRefs, Finishing, SessionsReady;
    if a.OpenDone? {
      DoneSessions(st, a.t, a.ok, a.total);
    } else if a.OpenPoll? {
      OpenPollFollows(st, a.t);
      hide ApplyOpenPoll, SendingFollows, Refs;
    } else if a.OpenStart? {
      BeginOpenRefs(st, a.t);
      OpenPollFollows(BeginOpen(st, a.t), a.t);
      hide ApplyOpenPoll, SendingFollows, Refs;
    } else if a.Announce? || a.Publish? || a.Drop? || a.Sweep? {
      EngineKeeps(st, a);
      hide Apply, Refs, SendsKept;
    } else {
      SessionStep(st, a);
      hide Apply, Refs, Enabled, Reported;
      assert Finishing(st.book, Apply(st, a).book);
      FinishingSessions(st.book, Apply(st, a).book);
    }
  }

  lemma FinishingSessions(b: Book, b': Book)
    requires Finishing(b, b')
    ensures b'.sessions.Keys == b.sessions.Keys && forall o :: o in b.sessions ==> b'.sessions[o].send == b.sessions[o].send
  {
  }

  lemma DoneSessions(st: State, t: Ref, ok: bool, total: nat)
    requires Refs(st) && Enabled(st, OpenDone(t, ok, total)) && ClaimsReady(st)
    ensures SessionsFrom(st, OpenDone(t, ok, total), ApplyOpenDone(st, t, ok, total).book)
  {
    hide Finishing, TaskRefs, FinishSend, CompleteSession;
    var b, task := st.book, st.tasks[t];
    var b1 := Register(b, t, task, task.pc.send, total);
    assert SessionsReady(b1);
    hide Refs, SessionsReady;
    FinishFinishing(b, task.pc.send);
    FinishingSessions(b, FinishSend(b, task.pc.send));
    CompleteFinishing(b1, t);
    FinishingSessions(b1, CompleteSession(b1, t));
  }

  /** An open job is submitted only for a ready send state. */
  ghost predicate JobsFrom(st: State, st': State) {
    forall t :: t in st'.tasks && st'.tasks[t].pc.OpenJob? ==>
      || (t in st.tasks && st.tasks[t].pc == st'.tasks[t].pc)
      || (st'.tasks[t].pc.send in st'.book.sends && st'.book.sends[st'.tasks[t].pc.send].ready)
  }

  lemma PollJobs(st: State, t: Ref)
    requires Refs(st) && Enabled(st, OpenPoll(t))
    ensures JobsFrom(st, ApplyOpenPoll(st, t))
  {
    hide BookRefs, FinishSend, AbandonOpen;
  }

  lemma PullJobs(st: State, a: Action)
    requires Refs(st) && Enabled(st, a) && (a.PullStart? || a.PullSlot? || a.EncodeDone? || a.DrainDone?)
    ensures JobsFrom(st, Apply(st, a))
  {
    hide BookRefs, TaskRefs, Uncount, CompleteSession, Settle, PutSession, SetPhase;
    if a.PullStart? { PullStartJobs(st, a.t); }
  }

  lemma PullStartJobs(st: State, t: Ref)
    requires Refs(st) && Enabled(st, PullStart(t))
    ensures JobsFrom(st, ApplyPullStart(st, t))
  {
    hide BookRefs, TaskRefs, Settle, PutSession, SetPhase;
  }

  lemma OtherJobs(st: State, a: Action)
    requires Refs(st) && Enabled(st, a)
    requires !a.PullStart? && !a.PullSlot? && !a.EncodeDone? && !a.DrainDone? && !a.OpenStart? && !a.OpenPoll?
    ensures JobsFrom(st, Apply(st, a))
  {
    hide BookRefs, TaskRefs, CancelAll, CancelSession, CompleteSession, FinishSend, Register;
  }

  lemma JobsStep(st: State, a: Action)
    requires Refs(st) && Enabled(st, a)
    ensures JobsFrom(st, Apply(st, a))
  {
    hide JobsFrom, TaskRefs;
    if a.OpenPoll? {
      PollJobs(st, a.t);
    } else if a.OpenStart? {
      StartJobs(st, a.t);
    } else if a.PullStart? || a.PullSlot? || a.EncodeDone? || a.DrainDone? {
      PullJobs(st, a);
    } else {
      OtherJobs(st, a);
    }
  }

  lemma StartJobs(st: State, t: Ref)
    requires Refs(st) && Enabled(st, OpenStart(t))
    ensures JobsFrom(st, ApplyOpenStart(st, t))
  {
    hide BookRefs, TaskRefs, ApplyOpenPoll;
    BeginOpenRefs(st, t);
    PollJobs(BeginOpen(st, t), t);
  }

  lemma ClaimsReadyStep(st: State, a: Action)
    requires Refs(st) && Enabled(st, a) && ClaimsReady(st)
    ensures ClaimsReady(Apply(st, a))
  {
    hide Refs, Enabled, Apply;
    ReadyStep(st, a);
    SessionsStep(st, a);
    JobsStep(st, a);
  }

  // ----- Runs -----

  /** Send state e is as action k, an announcement before state i, left it. */
  ghost predicate ToldBy(states: seq<State>, acts: seq<Action>, i: nat, e: SendState, k: nat)
    requires |states| == |acts| + 1
  {
    && k < i < |states| && e.ready && acts[k].Announce? && acts[k].tid == e.tid
    && e.preq == Some(acts[k].preq) && e.expire == Some(states[k].now + ABORT_TIMEOUT)
  }

  ghost predicate Announced(states: seq<State>, acts: seq<Action>, i: nat, e: SendState)
    requires |states| == |acts| + 1
  {
    exists k :: ToldBy(states, acts, i, e, k)
  }

  /** Ready send states were announced, the others were not. */
  ghost predicate SendTold(states: seq<State>, acts: seq<Action>, i: nat, e: SendState)
    requires |states| == |acts| + 1
  {
    if e.ready then Announced(states, acts, i, e) else e.expire.None?
  }

  ghost predicate Told(states: seq<State>, acts: seq<Action>, i: nat, b: Book)
    requires |states| == |acts| + 1
  {
    forall s :: s in b.sends ==> SendTold(states, acts, i, b.sends[s])
  }

  lemma ToldLater(states: seq<State>, acts: seq<Action>, i: nat, e: SendState, e': SendState)
    requires |states| == |acts| + 1 && i + 1 < |states| && SendTold(states, acts, i, e) && SameAnnouncement(e, e')
    ensures SendTold(states, acts, i + 1, e')
  {
    if e.ready {
      var k :| ToldBy(states, acts, i, e, k);
      assert ToldBy(states, acts, i + 1, e', k);
    }
  }

  lemma ToldFollows(states: seq<State>, acts: seq<Action>, i: nat, b: Book, b': Book)
    requires |states| == |acts| + 1 && i + 1 < |states| && Told(states, acts, i, b)
    requires forall s :: s in b'.sends ==>
      || (s in b.sends && SameAnnouncement(b.sends[s], b'.sends[s]))
      || (!b'.sends[s].ready && b'.sends[s].expire.None?)
      || ToldBy(states, acts, i + 1, b'.sends[s], i)
    ensures Told(states, acts, i + 1, b')
  {
    forall s | s in b'.sends ensures SendTold(states, acts, i + 1, b'.sends[s]) {
      if s in b.sends && SameAnnouncement(b.sends[s], b'.sends[s]) {
        ToldLater(states, acts, i, b.sends[s], b'.sends[s]);
      }
    }
  }

  lemma {:induction false} RunTold(states: seq<State>, acts: seq<Action>, slotCount: nat, i: nat)
    requires IsRun(states, acts, slotCount) && i < |states|
    ensures ClaimsReady(states[i]) && Told(states, acts, i, states[i].book)
  {
    hide Refs, Enabled, Apply, SendTold, ClaimsReady;
    if i == 0 {
      NothingClaimed(slotCount);
    } else {
      var st, a := states[i - 1], acts[i - 1];
      RunTold(states, acts, slotCount, i - 1);
      ClaimsReadyStep(st, a);
      if a.Announce? || a.Publish? || a.Sweep? {
        EngineTold(states, acts, slotCount, i - 1);
      } else {
        StepFollows(st, a);
        hide Told, Reported;
        ToldFollows(states, acts, i - 1, st.book, states[i].book);
      }
    }
  }

  lemma NothingClaimed(slotCount: nat)
    ensures ClaimsReady(Init(slotCount)) && Init(slotCount).book.sends == map[]
  {
  }

  lemma EngineTold(states: seq<State>, acts: seq<Action>, slotCount: nat, i: nat)
    requires IsRun(states, acts, slotCount) && i < |acts| && Told(states, acts, i, states[i].book)
    requires acts[i].Announce? || acts[i].Publish? || acts[i].Sweep?
    ensures Told(states, acts, i + 1, states[i + 1].book)
  {
    hide TaskRefs;
    var st, a, b, b' := states[i], acts[i], states[i].book, states[i + 1].book;
    assert b' == Apply(st, a).book;
    if a.Publish? && a.tid in b.meta && b.sends[b.meta[a.tid]].preq.None? {
      assert SendTold(states, acts, i, b.sends[b.meta[a.tid]]);
      assert !b.sends[b.meta[a.tid]].ready;
    }
    hide Told, SendTold;
    ToldFollows(states, acts, i, b, b');
  }

  // ----- Every event -----

  /** Event p of state n + 1 was appended by action n, which announcement k allowed: it
      names the request announced, and is an expiry exactly when the action is a sweep,
      made after the announcement's 480 seconds. */
  ghost predicate EventRight(states: seq<State>, acts: seq<Action>, n: nat, p: nat, k: nat) {
    && |states| == |acts| + 1 && k < n < |acts|
    && |states[n].book.events| <= p < |states[n + 1].book.events|
    && var x := states[n + 1].book.events[p];
       && acts[k].Announce? && acts[k].tid == x.tid && x.preq == Some(acts[k].preq)
       && (x.kind == SendingExpired <==> acts[n].Sweep?)
       && (x.kind == SendingExpired ==> acts[n] == Sweep(x.tid) && states[k].now + 480.0 < states[n].now)
       && (x.kind == Sending ==> Reported(states[n].book, states[n + 1].book, x))
  }

  lemma ReportedRight(states: seq<State>, acts: seq<Action>, slotCount: nat, n: nat, p: nat) returns (k: nat)
    requires IsRun(states, acts, slotCount) && n < |acts| && !acts[n].Sweep?
    requires Follows(states[n].book, states[n + 1].book) && Told(states, acts, n, states[n].book)
    requires |states[n].book.events| <= p < |states[n + 1].book.events|
    ensures EventRight(states, acts, n, p, k)
  {
    hide Refs, Enabled, Apply;
    var b, b' := states[n].book, states[n + 1].book;
    var s :| Reports(b, b', b'.events[p], s);
    assert b.sends[s].ready;
    assert SendTold(states, acts, n, b.sends[s]);
    k :| ToldBy(states, acts, n, b.sends[s], k);
  }

  lemma SweepRight(states: seq<State>, acts: seq<Action>, slotCount: nat, n: nat, p: nat) returns (k: nat)
    requires IsRun(states, acts, slotCount) && n < |acts| && acts[n].Sweep?
    requires Told(states, acts, n, states[n].book)
    requires |states[n].book.events| <= p < |states[n + 1].book.events|
    ensures EventRight(states, acts, n, p, k)
  {
    hide TaskRefs;
    var st, b, b' := states[n], states[n].book, states[n + 1].book;
    var tid := acts[n].tid;
    var e := b.sends[b.meta[tid]];
    assert b'.events == b.events + [FinalEvent(SendingExpired, tid, e.preq)];
    assert SendTold(states, acts, n, e);
    k :| ToldBy(states, acts, n, e, k);
    hide Refs, Apply, Enabled;
    assert b'.events[p] == FinalEvent(SendingExpired, tid, e.preq);
  }

  lemma NoEvent(st: State, a: Action)
    requires Refs(st) && Enabled(st, a) && (a.Announce? || a.Publish?)
    ensures Apply(st, a).book.events == st.book.events
  {
    hide BookRefs, TaskRefs;
  }

  /** In every run, whatever peers do: each event the engine is told was appended by one
      action, for a transfer the engine had announced; it names the announced request, says
      "sending_expired" exactly when a sweep sent it, later than 480 seconds after that
      announcement, and otherwise "sending", with a last needed send just finished. */
  lemma {:induction false} EventOrigin(states: seq<State>, acts: seq<Action>, slotCount: nat, j: nat, p: nat)
    returns (n: nat, k: nat)
    requires IsRun(states, acts, slotCount) && j < |states| && p < |states[j].book.events|
    ensures n < j && p < |states[n + 1].book.events| && states[n + 1].book.events[p] == states[j].book.events[p]
    ensures EventRight(states, acts, n, p, k)
    decreases j
  {
    hide Refs, Enabled, Apply, Told, Follows, EventRight, ClaimsReady;
    if j == 0 {
      assert false by { NoEvents(states, acts, slotCount); }
    } else if p < |states[j - 1].book.events| {
      n, k := EventOrigin(states, acts, slotCount, j - 1, p);
      EventsGrow(states[j - 1], acts[j - 1]);
    } else {
      n := j - 1;
      RunTold(states, acts, slotCount, n);
      if acts[n].Sweep? {
        k := SweepRight(states, acts, slotCount, n, p);
      } else if acts[n].Announce? || acts[n].Publish? {
        NoEvent(states[n], acts[n]);
        assert false;
      } else {
        StepFollows(states[n], acts[n]);
        k := ReportedRight(states, acts, slotCount, n, p);
      }
    }
  }

  lemma NoEvents(states: seq<State>, acts: seq<Action>, slotCount: nat)
    requires IsRun(states, acts, slotCount)
    ensures states[0].book.events == []
  {
  }

  // ----- Honest runs: the kind of an event for good -----

  /** The event of transfer tid tells whether its sends finished. */
  ghost predicate KindFits(b: Book, p: nat, s: Ref)
    requires p < |b.events| && s in b.sends
  {
    b.sends[s].ready && b.sends[s].tid == b.events[p].tid ==> (b.events[p].kind == Sending <==> FullySent(b.sends[s]))
  }

  lemma GoodSend(st: State, slotCount: nat, s: Ref)
    requires Good(st, slotCount) && s in st.book.sends
    ensures SendFits(st.book, Polled(st.tasks), s)
  {
    hide Base, SendFits, SendingExact, SessionsOrderly, KeysUnique, PullsApart;
  }

  lemma FreedAnnounced(st: State, slotCount: nat, tid: Name)
    requires Good(st, slotCount) && Freed(st.book, tid)
    ensures tid in st.book.announced
  {
    hide Base, SendFits, SendingExact, SessionsOrderly, KeysUnique, PullsApart;
  }

  ghost predicate SameCounters(b: Book, b': Book, s: Ref) {
    s in b.sends && s in b'.sends && b'.sends[s].sent == b.sends[s].sent && b'.sends[s].needSend == b.sends[s].needSend
  }

  /** The index entry of a transfer, and the next free number. */
  lemma IndexEntry(b: Book, next: Ref, tid: Name)
    requires BookRefs(b, next)
    ensures tid in b.meta ==> b.meta[tid] in b.sends && b.sends[b.meta[tid]].tid == tid
    ensures next !in b.sends
  {
  }

  lemma AnnounceCounters(st: State, tid: Name, preq: Name, s: Ref)
    requires tid in st.book.meta ==> st.book.meta[tid] in st.book.sends && st.book.sends[st.book.meta[tid]].tid == tid
    requires st.next !in st.book.sends && s in st.book.sends && st.book.sends[s].tid != tid
    ensures SameCounters(st.book, ApplyAnnounce(st, tid, preq).book, s)
  {
  }

  lemma PublishCounters(st: State, tid: Name, preq: Name, s: Ref)
    requires tid in st.book.meta ==> st.book.meta[tid] in st.book.sends
    requires st.next !in st.book.sends && s in st.book.sends
    ensures SameCounters(st.book, ApplyPublish(st, tid, preq).book, s)
  {
  }

  lemma EngineCounters(st: State, a: Action, slotCount: nat, s: Ref)
    requires Good(st, slotCount) && Refs(st) && Enabled(st, a) && Honest(st, a) && (a.Announce? || a.Publish? || a.Drop? || a.Sweep?)
    requires s in st.book.sends && Freed(st.book, st.book.sends[s].tid)
    ensures SameCounters(st.book, Apply(st, a).book, s)
  {
    FreedAnnounced(st, slotCount, st.book.sends[s].tid);
    hide Good, TaskRefs, Freed, BookRefs, ApplyAnnounce, ApplyPublish;
    match a
    case Announce(tid, preq) => IndexEntry(st.book, st.next, tid); AnnounceCounters(st, tid, preq, s);
    case Publish(tid, preq) => IndexEntry(st.book, st.next, tid); PublishCounters(st, tid, preq, s);
    case Drop(_) =>
    case Sweep(_) =>
  }

  lemma PollCounters(st: State, t: Ref, s: Ref)
    requires Refs(st) && Enabled(st, OpenPoll(t)) && s in st.book.sends && st.tasks[t].pc.send != s
    ensures var b' := ApplyOpenPoll(st, t).book; s in b'.sends && b'.sends[s] == st.book.sends[s]
  {
    hide BookRefs;
  }

  /** Opens do not claim a freed transfer. */
  lemma OpenCounters(st: State, a: Action, slotCount: nat, s: Ref)
    requires Good(st, slotCount) && Refs(st) && Enabled(st, a) && Honest(st, a) && (a.OpenStart? || a.OpenPoll?)
    requires s in st.book.sends && st.book.sends[s].ready && Freed(st.book, st.book.sends[s].tid)
    ensures var b' := Apply(st, a).book; s in b'.sends && b'.sends[s] == st.book.sends[s]
  {
    GoodSend(st, slotCount, s);
    hide Good, Freed, BookRefs, ApplyOpenPoll, BeginOpen, TaskRefs;
    if a.OpenPoll? {
      IsPolled(st.tasks, a.t);
      PollCounters(st, a.t, s);
    } else {
      StartCounters(st, a.t, s);
    }
  }

  lemma StartCounters(st: State, t: Ref, s: Ref)
    requires Refs(st) && Enabled(st, OpenStart(t)) && s in st.book.sends
    requires !(st.book.sends[s].tid in st.book.meta && st.book.meta[st.book.sends[s].tid] == s)
    ensures var b' := ApplyOpenStart(st, t).book; s in b'.sends && b'.sends[s] == st.book.sends[s]
  {
    hide BookRefs, TaskRefs, ApplyOpenPoll;
    BeginOpenRefs(st, t);
    BeginElsewhere(st, t, s);
    hide Refs, BeginOpen;
    PollCounters(BeginOpen(st, t), t, s);
  }

  lemma BeginElsewhere(st: State, t: Ref, s: Ref)
    requires Refs(st) && Enabled(st, OpenStart(t)) && s in st.book.sends
    requires !(st.book.sends[s].tid in st.book.meta && st.book.meta[st.book.sends[s].tid] == s)
    ensures BeginOpen(st, t).tasks[t].pc.OpenPolling? && BeginOpen(st, t).tasks[t].pc.send != s
    ensures s in BeginOpen(st, t).book.sends && BeginOpen(st, t).book.sends[s] == st.book.sends[s]
  {
    hide TaskRefs;
  }

  lemma FinishingMoves(b: Book, b': Book, s: Ref)
    requires Finishing(b, b') && s in b.sends
    ensures s in b'.sends && CountersMove(b.sends[s], b'.sends[s])
  {
    hide Reported;
  }

  lemma SessionCounters(st: State, a: Action, s: Ref)
    requires Refs(st) && Enabled(st, a) && ClaimsReady(st) && s in st.book.sends
    requires !a.Announce? && !a.Publish? && !a.Drop? && !a.Sweep? && !a.OpenStart? && !a.OpenPoll?
    ensures s in Apply(st, a).book.sends && CountersMove(st.book.sends[s], Apply(st, a).book.sends[s])
  {
    hide Finishing, CountersMove, SessionsReady;
    if a.OpenDone? {
      DoneCounters(st, a.t, a.ok, a.total, s);
    } else {
      SessionStep(st, a);
      FinishingMoves(st.book, Apply(st, a).book, s);
    }
  }

  lemma DoneCounters(st: State, t: Ref, ok: bool, total: nat, s: Ref)
    requires Refs(st) && Enabled(st, OpenDone(t, ok, total)) && ClaimsReady(st) && s in st.book.sends
    ensures var b' := ApplyOpenDone(st, t, ok, total).book; s in b'.sends && CountersMove(st.book.sends[s], b'.sends[s])
  {
    hide Finishing, TaskRefs, FinishSend, CompleteSession;
    var b, task := st.book, st.tasks[t];
    var b1 := Register(b, t, task, task.pc.send, total);
    assert SessionsReady(b1);
    hide Refs, SessionsReady;
    FinishFinishing(b, task.pc.send);
    FinishingMoves(b, FinishSend(b, task.pc.send), s);
    CompleteFinishing(b1, t);
    FinishingMoves(b1, CompleteSession(b1, t), s);
  }

  /** A freed transfer's counters are final. */
  lemma FreedCounters(st: State, a: Action, slotCount: nat, s: Ref)
    requires Good(st, slotCount) && Refs(st) && Enabled(st, a) && Honest(st, a) && ClaimsReady(st)
    requires s in st.book.sends && st.book.sends[s].ready && Freed(st.book, st.book.sends[s].tid)
    ensures var b, b' := st.book, Apply(st, a).book; s in b'.sends && FullySent(b'.sends[s]) == FullySent(b.sends[s])
  {
    hide Good, Refs, Enabled, Honest, Apply, Freed, ClaimsReady, SendFits;
    if a.Announce? || a.Publish? || a.Drop? || a.Sweep? {
      EngineCounters(st, a, slotCount, s);
    } else if a.OpenStart? || a.OpenPoll? {
      OpenCounters(st, a, slotCount, s);
    } else {
      SessionCounters(st, a, s);
      FreedIdle(st, slotCount, s);
      StepGood(st, a, slotCount);
      Unclaimed(Apply(st, a), slotCount, s);
    }
  }

  lemma FreedIdle(st: State, slotCount: nat, s: Ref)
    requires Good(st, slotCount) && s in st.book.sends && st.book.sends[s].ready && Freed(st.book, st.book.sends[s].tid)
    ensures st.book.sends[s].sending == 0
  {
    hide Good, Freed;
    GoodSend(st, slotCount, s);
  }

  lemma Unclaimed(st: State, slotCount: nat, s: Ref)
    requires Good(st, slotCount) && s in st.book.sends
    ensures st.book.sends[s].sending >= 0
  {
    hide Good, Freed;
    GoodSend(st, slotCount, s);
  }

  lemma ReadyUnique(st: State, slotCount: nat, s: Ref, s': Ref)
    requires Good(st, slotCount) && s in st.book.sends && s' in st.book.sends && st.book.sends[s].tid == st.book.sends[s'].tid
    requires st.book.sends[s].ready && st.book.sends[s'].ready
    ensures s == s' && st.book.sends[s].sent <= st.book.sends[s].needSend
  {
    GoodSend(st, slotCount, s);
    hide Base, SendingExact, SessionsOrderly, KeysUnique, PullsApart;
  }

  /** A new event fits the send state of its transfer. */
  lemma NewKindFits(states: seq<State>, acts: seq<Action>, slotCount: nat, n: nat, p: nat, k: nat, s: Ref)
    requires IsHonestRun(states, acts, slotCount) && n < |acts| && EventRight(states, acts, n, p, k)
    requires Good(states[n], slotCount) && Good(states[n + 1], slotCount) && ClaimsReady(states[n])
    requires s in states[n + 1].book.sends
    ensures KindFits(states[n + 1].book, p, s)
  {
    hide Good, Refs, Enabled, Apply, Honest, ClaimsReady;
    var st, b, b' := states[n], states[n].book, states[n + 1].book;
    var x := b'.events[p];
    if b'.sends[s].ready && b'.sends[s].tid == x.tid {
      if x.kind == Sending {
        var r :| Reports(b, b', x, r);
        if acts[n].Announce? || acts[n].Publish? {
          NoEvent(st, acts[n]);
          assert false;
        } else {
          NewSendingFits(st, acts[n], x, r);
          ReadyUnique(states[n + 1], slotCount, s, r);
        }
      } else {
        SweptUnfinished(st, slotCount, x.tid, s);
      }
    }
  }

  lemma NewSendingFits(st: State, a: Action, x: FinalEvent, r: Ref)
    requires Refs(st) && Enabled(st, a) && ClaimsReady(st) && !a.Sweep? && !a.Announce? && !a.Publish?
    requires Reports(st.book, Apply(st, a).book, x, r)
    ensures r in Apply(st, a).book.sends && Apply(st, a).book.sends[r].ready && Apply(st, a).book.sends[r].tid == x.tid
  {
    hide Refs, Enabled, Apply, ClaimsReady, Reported;
    StepFollows(st, a);
  }

  lemma SweptSends(st: State, tid: Name)
    requires Refs(st) && Enabled(st, Sweep(tid))
    ensures Apply(st, Sweep(tid)).book.sends == st.book.sends && tid in st.book.meta
    ensures var r := st.book.meta[tid]; r in st.book.sends && st.book.sends[r].tid == tid && st.book.sends[r].expire.Some?
  {
    hide TaskRefs;
  }

  lemma SweptUnfinished(st: State, slotCount: nat, tid: Name, s: Ref)
    requires Good(st, slotCount) && Refs(st) && Enabled(st, Sweep(tid)) && s in Apply(st, Sweep(tid)).book.sends
    requires var e := Apply(st, Sweep(tid)).book.sends[s]; e.ready && e.tid == tid
    ensures !FullySent(Apply(st, Sweep(tid)).book.sends[s])
  {
    hide Good, Freed, Refs, Enabled, Apply;
    SweptSends(st, tid);
    var r := st.book.meta[tid];
    GoodSend(st, slotCount, r);
    ReadyUnique(st, slotCount, s, r);
  }

  lemma ReadyBefore(st: State, a: Action, slotCount: nat, s: Ref, tid: Name)
    requires Good(st, slotCount) && Refs(st) && Enabled(st, a) && Honest(st, a) && ClaimsReady(st) && Freed(st.book, tid)
    requires s in Apply(st, a).book.sends && Apply(st, a).book.sends[s].ready && Apply(st, a).book.sends[s].tid == tid
    ensures s in st.book.sends && st.book.sends[s].ready && st.book.sends[s].tid == tid
  {
    FreedAnnounced(st, slotCount, tid);
    hide Good, Freed;
    if a.Announce? || a.Publish? || a.Sweep? {
      EngineReady(st, a, s);
    } else {
      StepFollows(st, a);
      hide Refs, Enabled, Apply, ClaimsReady, Reported, Honest;
    }
  }

  ghost predicate ReadyFrom(b: Book, b': Book, s: Ref) {
    s in b'.sends && b'.sends[s].ready ==> s in b.sends && b.sends[s].ready && b.sends[s].tid == b'.sends[s].tid
  }

  lemma AnnounceReady(st: State, tid: Name, preq: Name, s: Ref)
    requires tid in st.book.meta ==> st.book.meta[tid] in st.book.sends && st.book.sends[st.book.meta[tid]].tid == tid
    ensures var b, b' := st.book, ApplyAnnounce(st, tid, preq).book; (s in b'.sends && b'.sends[s].tid == tid) || ReadyFrom(b, b', s)
  {
  }

  lemma PublishReady(st: State, tid: Name, preq: Name, s: Ref)
    requires tid in st.book.meta ==> st.book.meta[tid] in st.book.sends
    ensures ReadyFrom(st.book, ApplyPublish(st, tid, preq).book, s)
  {
  }

  lemma EngineReady(st: State, a: Action, s: Ref)
    requires Refs(st) && Enabled(st, a) && (a.Announce? || a.Publish? || a.Sweep?)
    ensures var b, b' := st.book, Apply(st, a).book;
      || (a.Announce? && s in b'.sends && b'.sends[s].tid == a.tid)
      || ReadyFrom(b, b', s)
  {
    hide TaskRefs, BookRefs, ApplyAnnounce, ApplyPublish;
    IndexEntry(st.book, st.next, a.tid);
    match a
    case Announce(tid, preq) => AnnounceReady(st, tid, preq, s);
    case Publish(tid, preq) => PublishReady(st, tid, preq, s);
    case Sweep(_) =>
  }

  /** In every state of every honest run an event says "sending" exactly when the sends of
      its transfer are all finished, and "sending_expired" when they are not and never will be. */
  lemma {:induction false} EventKindFits(states: seq<State>, acts: seq<Action>, slotCount: nat, j: nat, p: nat, s: Ref)
    requires IsHonestRun(states, acts, slotCount) && j < |states| && p < |states[j].book.events| && s in states[j].book.sends
    ensures states[j].book.sends[s].ready && states[j].book.sends[s].tid == states[j].book.events[p].tid ==>
      (states[j].book.events[p].kind == Sending <==> FullySent(states[j].book.sends[s]))
    decreases j
  {
    hide Good, Refs, Enabled, Apply, Honest, ClaimsReady, Told, Freed;
    if j == 0 {
      assert false by { NoEvents(states, acts, slotCount); }
    } else {
      var n := j - 1;
      var st, b, b' := states[n], states[n].book, states[j].book;
      RunGood(states, acts, slotCount, n);
      RunTold(states, acts, slotCount, n);
      EventsGrow(st, acts[n]);
      if p >= |b.events| {
        var m, k := EventOrigin(states, acts, slotCount, j, p);
        RunGood(states, acts, slotCount, j);
        FreedStays(states, acts, slotCount, m + 1, n + 1);
        assert m == n by { if m < n { FreedStays(states, acts, slotCount, m + 1, n); } }
        NewKindFits(states, acts, slotCount, n, p, k, s);
      } else if b'.sends[s].ready && b'.sends[s].tid == b'.events[p].tid {
        assert Freed(b, b.events[p].tid) by { EventFrees(b, p); }
        ReadyBefore(st, acts[n], slotCount, s, b.events[p].tid);
        EventKindFits(states, acts, slotCount, n, p, s);
        FreedCounters(st, acts[n], slotCount, s);
      }
    }
  }

  lemma EventFrees(b: Book, p: nat)
    requires p < |b.events|
    ensures Freed(b, b.events[p].tid)
  {
  }
}
