/** How long things last: a closed operation key, an open that waits for its
    announcement, an announcement nobody uses, and a dropped transfer's absence. */
module SessionTimes {
  import opened Wrappers
  import opened SessionModel
  import opened SessionAbort
  import opened SessionAccounting
  import opened SessionEvents
  import opened SessionClaims

  // ----- Completed sessions -----

  /** Session o is complete after the step and was not before. */
  ghost predicate Completed(b: Book, b': Book, o: Ref) {
    o in b'.sessions && b'.sessions[o].phase == Complete && (o in b.sessions ==> b.sessions[o].phase != Complete)
  }

  /** Sessions keep their keys, and none becomes complete. */
  ghost predicate NoneCompletes(b: Book, b': Book) {
    && b'.sessions.Keys == b.sessions.Keys
    && forall o :: o in b.sessions ==>
         && b'.sessions[o].Key() == b.sessions[o].Key()
         && (b'.sessions[o].phase == Complete ==> b.sessions[o].phase == Complete)
  }

  lemma NoneTrans(b: Book, b1: Book, b2: Book)
    requires NoneCompletes(b, b1) && NoneCompletes(b1, b2)
    ensures NoneCompletes(b, b2)
  {
  }

  lemma FinishNone(b: Book, s: Ref)
    requires s in b.sends
    ensures FinishSend(b, s).sessions == b.sessions && FinishSend(b, s).producers == b.producers
  {
  }

  lemma DiscardNone(b: Book, o: Ref)
    requires HasSession(b, o)
    ensures Discard(b, o).sessions == b.sessions
  {
    hide FinishSend;
    FinishNone(Forget(b, b.sessions[o].skey).(finishes := b.finishes + multiset{o}), b.sessions[o].send);
  }

  lemma SettleNone(b: Book, o: Ref)
    requires HasSession(b, o)
    ensures Settle(b, o).sessions == b.sessions
  {
    hide Discard;
    DiscardNone(b, o);
  }

  lemma PutNone(b: Book, o: Ref, x: Session)
    requires HasSession(b, o) && x.Key() == b.sessions[o].Key() && x.send in b.sends
    requires x.phase == Complete ==> b.sessions[o].phase == Complete
    ensures NoneCompletes(b, PutSession(b, o, x)) && NoneCompletes(b, Settle(PutSession(b, o, x), o))
  {
    hide Settle;
    SettleNone(PutSession(b, o, x), o);
  }

  lemma UncountNone(b: Book, o: Ref)
    requires HasSession(b, o)
    ensures NoneCompletes(b, Uncount(b, o))
  {
    hide Settle, NoneCompletes;
    PutNone(b, o, b.sessions[o].(inflight := b.sessions[o].inflight - 1));
  }

  lemma CancelNone(b: Book, o: Ref)
    requires HasSession(b, o)
    ensures NoneCompletes(b, CancelSession(b, o))
  {
    hide Settle, NoneCompletes;
    PutNone(b, o, b.sessions[o].(phase := Cancelled));
  }

  lemma SameNone(b: Book)
    ensures NoneCompletes(b, b)
  {
  }

  lemma {:induction false} CancelAllNone(b: Book, order: seq<Ref>)
    requires HasSessions(b, order)
    ensures NoneCompletes(b, CancelAll(b, order))
    decreases |order|
  {
    hide NoneCompletes, CancelSession;
    SameNone(b);
    if order != [] {
      var b1 := CancelSession(b, order[0]);
      CancelNone(b, order[0]);
      CancelCloses(b, order[0]);
      assert HasSessions(b1, order[1..]) by {
        forall i | 0 <= i < |order[1..]| ensures HasSession(b1, order[1..][i]) { assert HasSession(b, order[i + 1]); }
      }
      CancelAllNone(b1, order[1..]);
      NoneTrans(b, b1, CancelAll(b1, order[1..]));
    }
  }

  /** `_complete_producer_session` completes a registered session and nothing else. */
  lemma CompleteOne(b: Book, o: Ref)
    requires HasSession(b, o)
    ensures CompleteSession(b, o).sessions == if Live(b, o) then b.sessions[o := b.sessions[o].(phase := Complete)] else b.sessions
  {
    hide FinishSend;
    if Live(b, o) {
      FinishNone(SetPhase(Forget(b, b.sessions[o].skey), o, Complete).(finishes := b.finishes + multiset{o}), b.sessions[o].send);
    }
  }

  // ----- What each action closes -----

  /** The action closes the key: an abort of it starts, or a session of it completes. */
  ghost predicate Closes(st: State, a: Action, st': State, key: OpKey) {
    || (a.AbortStart? && a.t in st.tasks && st.tasks[a.t].Key() == key)
    || exists o :: Completed(st.book, st'.book, o) && st'.book.sessions[o].Key() == key
  }

  /** The closed keys after the action: closed ones until 540 seconds from now, and of the
      others those it had, but for expired ones that a dispatch purges. */
  ghost predicate ClosedAfter(st: State, a: Action, st': State, key: OpKey) {
    if Closes(st, a, st', key) then key in st'.closed && st'.closed[key] == st.now + 540.0
    else
      && (key in st'.closed ==> key in st.closed && st'.closed[key] == st.closed[key])
      && (key in st.closed && key !in st'.closed ==> st.closed[key] <= st.now)
      && (a.Dispatch? && key in st'.closed ==> st'.closed[key] > st.now)
  }

  lemma QuietCloses(st: State, a: Action, st': State, key: OpKey)
    requires NoneCompletes(st.book, st'.book) && !a.AbortStart?
    ensures !Closes(st, a, st', key)
  {
  }

  lemma PullNone(st: State, a: Action)
    requires Refs(st) && Enabled(st, a) && (a.PullStart? || a.PullSlot? || a.DrainDone?)
    ensures NoneCompletes(st.book, Apply(st, a).book) && Apply(st, a).closed == st.closed
  {
    hide NoneCompletes, Settle, Uncount, BookRefs;
    SameNone(st.book);
    if a.PullStart? {
      PullStartNone(st, a.t);
      hide ApplyPullStart;
    } else {
      SessionOfPull(st, a.t);
      var o := st.tasks[a.t].pc.session;
      PutNone(st.book, o, st.book.sessions[o].(phase := Failed));
      UncountNone(st.book, o);
    }
  }

  lemma PullStartNone(st: State, t: Ref)
    requires Refs(st) && Enabled(st, PullStart(t))
    ensures NoneCompletes(st.book, ApplyPullStart(st, t).book) && ApplyPullStart(st, t).closed == st.closed
  {
    hide NoneCompletes, Settle, TaskRefs;
    SameNone(st.book);
    var skey := st.tasks[t].skey;
    if skey in st.book.producers {
      var o := st.book.producers[skey];
      PutNone(st.book, o, st.book.sessions[o].(phase := Failed));
      PutNone(st.book, o, CountPull(st.book.sessions[o], st.tasks[t].pc.chunk));
    }
  }

  lemma PollNone(st: State, t: Ref)
    requires t in st.tasks && st.tasks[t].pc.OpenPolling? && st.tasks[t].pc.send in st.book.sends
    ensures ApplyOpenPoll(st, t).book.sessions == st.book.sessions && ApplyOpenPoll(st, t).closed == st.closed
  {
    hide FinishSend;
    var s := st.tasks[t].pc.send;
    FinishNone(PutSend(st.book, s, Claim(st.book.sends[s], st.tasks[t].pc.ranks)), s);
  }

  lemma StartNone(st: State, t: Ref)
    requires Refs(st) && Enabled(st, OpenStart(t))
    ensures ApplyOpenStart(st, t).book.sessions == st.book.sessions && ApplyOpenStart(st, t).closed == st.closed
  {
    BeginTally(st, t, 0);
    hide Refs, ApplyOpenPoll;
    PollNone(BeginOpen(st, t), t);
  }

  lemma OtherNone(st: State, a: Action)
    requires Refs(st) && Enabled(st, a)
    requires !a.PullStart? && !a.PullSlot? && !a.DrainDone? && !a.EncodeDone? && !a.OpenDone? && !a.OpenPoll? && !a.OpenStart?
    ensures NoneCompletes(st.book, Apply(st, a).book)
    ensures !a.AbortStart? && !a.Dispatch? ==> Apply(st, a).closed == st.closed
  {
    hide NoneCompletes, BookRefs, CancelAll, CancelSession, ValidTarget, Drained;
    SameNone(st.book);
    match a
    case AbortStart(t, target) =>
      if target.Some? {
        TargetHasSession(st, t, target);
        CancelNone(st.book, target.value);
      }
    case AbortDrained(t, order) => AbortEndGood(st.book, st.tasks[t].Key(), order, st.next); CancelAllNone(st.book, order);
    case AbortTimedOut(t, order) => AbortEndGood(st.book, st.tasks[t].Key(), order, st.next); CancelAllNone(st.book, order);
    case Announce(_, _) => EngineKeeps(st, a); SameKept(st.book, Apply(st, a).book);
    case Publish(_, _) => EngineKeeps(st, a); SameKept(st.book, Apply(st, a).book);
    case Drop(_) => EngineKeeps(st, a); SameKept(st.book, Apply(st, a).book);
    case Sweep(_) => EngineKeeps(st, a); SameKept(st.book, Apply(st, a).book);
    case Tick(_) =>
    case Dispatch(_, _, _) =>
    case Respond(_) =>
  }

  lemma SameKept(b: Book, b': Book)
    requires b'.sessions == b.sessions
    ensures NoneCompletes(b, b')
  {
  }

  // ----- Completions close -----

  /** What completing session o of book b does to the closed keys. */
  lemma CompletionCloses(st: State, st': State, a: Action, b: Book, o: Ref, key: OpKey)
    requires !a.AbortStart? && !a.Dispatch? && HasSession(b, o)
    requires OnlyOwn(st.book, b, o) && NoneCompletes(CompleteSession(b, o), st'.book)
    requires st'.book.sessions[o].phase == CompleteSession(b, o).sessions[o].phase
    requires st'.closed == CloseCompleted(st.closed, st.now, b, o)
    ensures ClosedAfter(st, a, st', key)
  {
    hide CompleteSession;
    CompleteOne(b, o);
    if Live(b, o) {
      LiveCompletes(st.book, b, st'.book, o);
      hide Live, NoneCompletes, OnlyOwn, Completed;
    } else {
      GoneCompletes(st.book, b, st'.book, o);
      hide Live, NoneCompletes, OnlyOwn, Completed;
    }
  }

  /** Book b differs from b0 in session o at most, which is not complete in either. */
  ghost predicate OnlyOwn(b0: Book, b: Book, o: Ref) {
    && (forall p :: p in b.sessions && p != o ==> p in b0.sessions && b.sessions[p] == b0.sessions[p])
    && o in b.sessions && b.sessions[o].phase != Complete && (o in b0.sessions ==> b0.sessions[o].phase != Complete)
  }

  lemma LiveCompletes(b0: Book, b: Book, b': Book, o: Ref)
    requires OnlyOwn(b0, b, o) && NoneCompletes(b.(sessions := b.sessions[o := b.sessions[o].(phase := Complete)]), b')
    requires b'.sessions[o].phase == Complete
    ensures Completed(b0, b', o) && b'.sessions[o].Key() == b.sessions[o].Key()
    ensures forall p :: Completed(b0, b', p) ==> p == o
  {
  }

  lemma GoneCompletes(b0: Book, b: Book, b': Book, o: Ref)
    requires OnlyOwn(b0, b, o) && NoneCompletes(b, b')
    ensures forall p :: !Completed(b0, b', p)
  {
  }

  lemma DoneClosed(st: State, t: Ref, ok: bool, total: nat, key: OpKey)
    requires Refs(st) && Enabled(st, OpenDone(t, ok, total))
    ensures ClosedAfter(st, OpenDone(t, ok, total), ApplyOpenDone(st, t, ok, total), key)
  {
    hide FinishSend, CompleteSession, ClosedAfter;
    var b, task, a, st' := st.book, st.tasks[t], OpenDone(t, ok, total), ApplyOpenDone(st, t, ok, total);
    if !ok {
      FinishNone(b, task.pc.send);
      SameKept(b, st'.book);
      KeptClosed(st, a, st', key);
    } else {
      var b1 := Register(b, t, task, task.pc.send, total);
      assert OnlyOwn(b, b1, t);
      if total == 0 {
        SameNone(CompleteSession(b1, t));
        CompletionCloses(st, st', a, b1, t, key);
      } else {
        SameNone(b1);
        GoneCompletes(b, b1, st'.book, t);
        UncompletedClosed(st, a, st', key);
      }
    }
  }

  lemma KeptClosed(st: State, a: Action, st': State, key: OpKey)
    requires NoneCompletes(st.book, st'.book) && !a.AbortStart? && !a.Dispatch? && st'.closed == st.closed
    ensures ClosedAfter(st, a, st', key)
  {
    QuietCloses(st, a, st', key);
  }

  lemma UncompletedClosed(st: State, a: Action, st': State, key: OpKey)
    requires (forall p :: !Completed(st.book, st'.book, p)) && !a.AbortStart? && !a.Dispatch? && st'.closed == st.closed
    ensures ClosedAfter(st, a, st', key)
  {
  }

  lemma EncodeClosed(st: State, t: Ref, ok: bool, key: OpKey)
    requires Refs(st) && Enabled(st, EncodeDone(t, ok))
    ensures ClosedAfter(st, EncodeDone(t, ok), ApplyEncodeDone(st, t, ok), key)
  {
    hide Uncount, CompleteSession, ClosedAfter, NoneCompletes, BookRefs;
    EncodedSession(st, t);
    var b, a, st' := st.book, EncodeDone(t, ok), ApplyEncodeDone(st, t, ok);
    var PullEncoding(chunk, o, slot) := st.tasks[t].pc;
    if !ok {
      PutNone(b, o, b.sessions[o].(phase := Failed));
      KeptClosed(st, a, st', key);
    } else {
      var x := CountDone(b.sessions[o], chunk);
      var b1 := PutSession(b, o, x);
      if Completes(x) {
        var b2 := CompleteSession(b1, o);
        CompleteCloses(b1, o);
        UncountNone(b2, o);
        UncountPhase(b2, o);
        assert OnlyOwn(b, b1, o);
        CompletionCloses(st, st', a, b1, o, key);
      } else {
        PutNone(b, o, x);
        UncountNone(b1, o);
        NoneTrans(b, b1, Uncount(b1, o));
        KeptClosed(st, a, st', key);
      }
    }
  }

  lemma EncodedSession(st: State, t: Ref)
    requires Refs(st) && t in st.tasks && st.tasks[t].pc.PullEncoding?
    ensures HasSession(st.book, st.tasks[t].pc.session)
  {
    assert TaskRefs(st.book, st.tasks[t]);
  }

  lemma UncountPhase(b: Book, o: Ref)
    requires HasSession(b, o)
    ensures o in Uncount(b, o).sessions && Uncount(b, o).sessions[o].phase == b.sessions[o].phase
  {
    hide Settle;
    SettleNone(PutSession(b, o, b.sessions[o].(inflight := b.sessions[o].inflight - 1)), o);
  }

  lemma AbortClosed(st: State, t: Ref, target: Option<Ref>, key: OpKey)
    requires Refs(st) && Enabled(st, AbortStart(t, target)) && (target.Some? ==> HasSession(st.book, target.value))
    ensures ClosedAfter(st, AbortStart(t, target), ApplyAbortStart(st, t, target), key)
  {
    OtherNone(st, AbortStart(t, target));
    hide Refs, CancelSession, ValidTarget;
  }

  lemma DispatchClosed(st: State, skey: SessionKey, nonce: Name, request: Request, key: OpKey)
    ensures ClosedAfter(st, Dispatch(skey, nonce, request), ApplyDispatch(st, skey, nonce, request), key)
  {
  }

  lemma ClosedStep(st: State, a: Action, key: OpKey)
    requires Refs(st) && Enabled(st, a)
    ensures ClosedAfter(st, a, Apply(st, a), key)
  {
    hide ClosedAfter, NoneCompletes, BookRefs, TaskRefs;
    if a.OpenDone? {
      DoneClosed(st, a.t, a.ok, a.total, key);
    } else if a.EncodeDone? {
      EncodeClosed(st, a.t, a.ok, key);
    } else if a.AbortStart? {
      if a.target.Some? { TargetHasSession(st, a.t, a.target); }
      AbortClosed(st, a.t, a.target, key);
    } else if a.Dispatch? {
      DispatchClosed(st, a.skey, a.nonce, a.request, key);
    } else {
      QuietStep(st, a);
      hide Apply;
      KeptClosed(st, a, Apply(st, a), key);
    }
  }

  lemma QuietStep(st: State, a: Action)
    requires Refs(st) && Enabled(st, a) && !a.OpenDone? && !a.EncodeDone? && !a.AbortStart? && !a.Dispatch?
    ensures NoneCompletes(st.book, Apply(st, a).book) && Apply(st, a).closed == st.closed
  {
    hide NoneCompletes, Refs, ApplyOpenPoll, ApplyOpenStart;
    if a.PullStart? || a.PullSlot? || a.DrainDone? {
      PullNone(st, a);
    } else if a.OpenPoll? {
      SendOfPoll(st, a.t);
      PollNone(st, a.t);
      SameKept(st.book, Apply(st, a).book);
    } else if a.OpenStart? {
      StartNone(st, a.t);
      SameKept(st.book, Apply(st, a).book);
    } else {
      OtherNone(st, a);
    }
  }

  // ----- Closed keys over runs -----

  /** Action k of the run closes the key. */
  ghost predicate ClosedAt(states: seq<State>, acts: seq<Action>, k: nat, key: OpKey)
    requires |states| == |acts| + 1
  {
    k < |acts| && Closes(states[k], acts[k], states[k + 1], key)
  }

  /** The expiry of a closed key is 540 seconds after an action that closed it. */
  ghost predicate ClosedSince(states: seq<State>, acts: seq<Action>, j: nat, key: OpKey)
    requires |states| == |acts| + 1 && j < |states|
  {
    key in states[j].closed ==> exists k :: 0 <= k < j && ClosedAt(states, acts, k, key) && states[j].closed[key] == states[k].now + 540.0
  }

  lemma {:induction false} RunClosedSince(states: seq<State>, acts: seq<Action>, slotCount: nat, j: nat, key: OpKey)
    requires IsRun(states, acts, slotCount) && j < |states|
    ensures ClosedSince(states, acts, j, key)
  {
    hide Refs, Enabled, Apply, Closes;
    if j > 0 {
      RunClosedSince(states, acts, slotCount, j - 1, key);
      ClosedStep(states[j - 1], acts[j - 1], key);
      if key in states[j].closed && !ClosedAt(states, acts, j - 1, key) {
        var k :| 0 <= k < j - 1 && ClosedAt(states, acts, k, key) && states[j - 1].closed[key] == states[k].now + 540.0;
      }
    }
  }

  lemma {:induction false} TimePasses(states: seq<State>, acts: seq<Action>, slotCount: nat, k: nat, j: nat)
    requires IsRun(states, acts, slotCount) && k <= j < |states|
    ensures states[k].now <= states[j].now
    decreases j
  {
    hide Refs, Enabled, Apply;
    if k < j {
      TimePasses(states, acts, slotCount, k, j - 1);
      NowGrows(states[j - 1], acts[j - 1]);
    }
  }

  /** Until 540 seconds after an action that closes it, the key is closed. */
  lemma {:induction false} ClosedFor(states: seq<State>, acts: seq<Action>, slotCount: nat, k: nat, j: nat, key: OpKey)
    requires IsRun(states, acts, slotCount) && k < j < |states| && ClosedAt(states, acts, k, key)
    requires states[j].now < states[k].now + 540.0
    ensures key in states[j].closed && states[j].closed[key] >= states[k].now + 540.0
    decreases j
  {
    hide Refs, Enabled, Apply, Closes;
    ClosedStep(states[j - 1], acts[j - 1], key);
    TimePasses(states, acts, slotCount, j - 1, j);
    if k < j - 1 {
      ClosedFor(states, acts, slotCount, k, j - 1, key);
      TimePasses(states, acts, slotCount, k, j - 1);
    }
  }

  /** Closed keys exactly, in every run: when a request is dispatched, the keys left in
      `_closed` are those of which an abort started or a session completed less than 540
      seconds ago. */
  lemma ClosedExactly(states: seq<State>, acts: seq<Action>, slotCount: nat, n: nat, key: OpKey)
    requires IsRun(states, acts, slotCount) && n < |acts| && acts[n].Dispatch?
    ensures key in states[n + 1].closed <==>
      exists k :: 0 <= k < n && ClosedAt(states, acts, k, key) && states[n].now < states[k].now + 540.0
  {
    hide Refs, Enabled, Apply, ClosedAt;
    assert states[n + 1].now == states[n].now by { DispatchInstant(states[n], acts[n]); }
    if key in states[n + 1].closed {
      RunClosedSince(states, acts, slotCount, n + 1, key);
      ClosedStep(states[n], acts[n], key);
      var k :| 0 <= k < n + 1 && ClosedAt(states, acts, k, key) && states[n + 1].closed[key] == states[k].now + 540.0;
      DispatchCloses(states, acts, slotCount, n, key);
    }
    if k :| 0 <= k < n && ClosedAt(states, acts, k, key) && states[n].now < states[k].now + 540.0 {
      ClosedFor(states, acts, slotCount, k, n + 1, key);
    }
  }

  lemma DispatchInstant(st: State, a: Action)
    requires Refs(st) && Enabled(st, a) && a.Dispatch?
    ensures Apply(st, a).now == st.now && Apply(st, a).book == st.book
  {
    hide BookRefs, TaskRefs;
  }

  lemma DispatchCloses(states: seq<State>, acts: seq<Action>, slotCount: nat, n: nat, key: OpKey)
    requires IsRun(states, acts, slotCount) && n < |acts| && acts[n].Dispatch?
    ensures !ClosedAt(states, acts, n, key)
  {
    hide Refs, Enabled, Apply;
    DispatchInstant(states[n], acts[n]);
    SameNone(states[n].book);
    QuietCloses(states[n], acts[n], states[n + 1], key);
  }

  // ----- Opens that wait -----

  /** Where the polling opens of an action's outcome come from. */
  ghost predicate PollersFrom(st: State, a: Action, st': State) {
    forall t :: t in st'.tasks && st'.tasks[t].pc.OpenPolling? ==>
      || (t in st.tasks && st'.tasks[t] == st.tasks[t])
      || (a == OpenStart(t) && st'.tasks[t].pc.deadline == st.now + 480.0)
  }

  lemma PollPollers(st: State, t: Ref)
    requires t in st.tasks && st.tasks[t].pc.OpenPolling? && st.tasks[t].pc.send in st.book.sends
    ensures PollersFrom(st, OpenPoll(t), ApplyOpenPoll(st, t))
  {
    hide FinishSend, AbandonOpen, Claim, PutSend;
  }

  lemma StartPollers(st: State, t: Ref)
    requires Refs(st) && Enabled(st, OpenStart(t))
    ensures PollersFrom(st, OpenStart(t), ApplyOpenStart(st, t))
  {
    BeginTally(st, t, 0);
    hide Refs, ApplyOpenPoll;
    PollPollers(BeginOpen(st, t), t);
  }

  lemma PullPollers(st: State, a: Action)
    requires Refs(st) && Enabled(st, a) && (a.PullStart? || a.PullSlot? || a.EncodeDone? || a.DrainDone?)
    ensures PollersFrom(st, a, Apply(st, a))
  {
    hide BookRefs, TaskRefs, Uncount, CompleteSession, Settle, PutSession, SetPhase;
    if a.PullStart? { PullStartPollers(st, a.t); }
  }

  lemma PullStartPollers(st: State, t: Ref)
    requires Refs(st) && Enabled(st, PullStart(t))
    ensures PollersFrom(st, PullStart(t), ApplyPullStart(st, t))
  {
    hide BookRefs, TaskRefs, Settle, PutSession, SetPhase;
  }

  lemma OtherPollers(st: State, a: Action)
    requires Refs(st) && Enabled(st, a)
    requires !a.PullStart? && !a.PullSlot? && !a.EncodeDone? && !a.DrainDone? && !a.OpenStart? && !a.OpenPoll?
    ensures PollersFrom(st, a, Apply(st, a))
  {
    hide BookRefs, TaskRefs, CancelAll, CancelSession, CompleteSession, FinishSend, Register;
  }

  lemma PollersStep(st: State, a: Action)
    requires Refs(st) && Enabled(st, a)
    ensures PollersFrom(st, a, Apply(st, a))
  {
    hide PollersFrom, Refs;
    if a.OpenPoll? {
      SendOfPoll(st, a.t);
      PollPollers(st, a.t);
    } else if a.OpenStart? {
      StartPollers(st, a.t);
    } else if a.PullStart? || a.PullSlot? || a.EncodeDone? || a.DrainDone? {
      PullPollers(st, a);
    } else {
      OtherPollers(st, a);
    }
  }

  /** A polling open started at action k. */
  lemma {:induction false} PollingSince(states: seq<State>, acts: seq<Action>, slotCount: nat, j: nat, t: Ref) returns (k: nat)
    requires IsRun(states, acts, slotCount) && j < |states| && t in states[j].tasks && states[j].tasks[t].pc.OpenPolling?
    ensures k < j && acts[k] == OpenStart(t) && states[j].tasks[t].pc.deadline == states[k].now + 480.0
    decreases j
  {
    hide Refs, Enabled, Apply;
    if j == 0 {
      assert false by { NoTasks(slotCount); }
    } else {
      PollersStep(states[j - 1], acts[j - 1]);
      if t in states[j - 1].tasks && states[j].tasks[t] == states[j - 1].tasks[t] {
        k := PollingSince(states, acts, slotCount, j - 1, t);
      } else {
        k := j - 1;
      }
    }
  }

  lemma NoTasks(slotCount: nat)
    ensures Init(slotCount).tasks == map[]
  {
  }

  /** What a waiting open does when it wakes, in every run: it submits its job exactly when
      the transfer is announced and its key is not closed, and goes on waiting exactly when
      neither holds and fewer than 480 seconds have passed since it started. */
  lemma OpenWaits(states: seq<State>, acts: seq<Action>, slotCount: nat, j: nat, t: Ref) returns (k: nat)
    requires IsRun(states, acts, slotCount) && j < |acts| && acts[j] == OpenPoll(t)
    ensures k < j && acts[k] == OpenStart(t)
    ensures t in states[j].tasks && states[j].tasks[t].pc.OpenPolling? && states[j].tasks[t].pc.send in states[j].book.sends
    ensures var ready, closed := states[j].book.sends[states[j].tasks[t].pc.send].ready, states[j].tasks[t].Key() in states[j].closed;
      && t in states[j + 1].tasks
      && (states[j + 1].tasks[t].pc == OpenJob(states[j].tasks[t].pc.send) <==> ready && !closed)
      && (states[j + 1].tasks[t].pc.OpenPolling? <==> !ready && !closed && states[j].now < states[k].now + 480.0)
      && (states[j + 1].tasks[t].pc.OpenPolling? ==> states[j + 1] == states[j])
  {
    hide Refs, Apply;
    SendOfPoll(states[j], t);
    k := PollingSince(states, acts, slotCount, j, t);
    PollOutcome(states[j], t);
  }

  lemma PollOutcome(st: State, t: Ref)
    requires Refs(st) && Enabled(st, OpenPoll(t)) && st.tasks[t].pc.send in st.book.sends
    ensures var ready, closed := st.book.sends[st.tasks[t].pc.send].ready, st.tasks[t].Key() in st.closed;
      var st' := Apply(st, OpenPoll(t));
      && t in st'.tasks
      && (st'.tasks[t].pc == OpenJob(st.tasks[t].pc.send) <==> ready && !closed)
      && (st'.tasks[t].pc.OpenPolling? <==> !ready && !closed && st.now < st.tasks[t].pc.deadline)
      && (st'.tasks[t].pc.OpenPolling? ==> st' == st)
  {
    hide BookRefs, FinishSend, AbandonOpen, Claim, PutSend;
  }

  // ----- Sweeps and drops -----

  /** When a sweep may free a transfer, in every run: exactly when an announcement of it is
      more than 480 seconds old that readied its state, and nobody holds a claim. */
  lemma SweepExactly(states: seq<State>, acts: seq<Action>, slotCount: nat, i: nat, tid: Name)
    requires IsRun(states, acts, slotCount) && i < |states| && Refs(states[i]) && tid in states[i].book.meta
    ensures states[i].book.meta[tid] in states[i].book.sends
    ensures var e := states[i].book.sends[states[i].book.meta[tid]];
      Enabled(states[i], Sweep(tid)) <==>
        e.sending == 0 && exists k: nat :: ToldBy(states, acts, i, e, k) && states[k].now + 480.0 < states[i].now
  {
    RunTold(states, acts, slotCount, i);
    hide IsRun, TaskRefs;
    var st := states[i];
    var e := st.book.sends[st.book.meta[tid]];
    assert SendTold(states, acts, i, e);
    if e.ready {
      var k: nat :| ToldBy(states, acts, i, e, k);
      assert e.expire == Some(states[k].now + 480.0);
    }
  }

  /** The action names the transfer: an announcement, a publication or an open of it. */
  ghost predicate Names(st: State, a: Action, tid: Name) {
    || ((a.Announce? || a.Publish?) && a.tid == tid)
    || (a.OpenStart? && a.t in st.tasks && st.tasks[a.t].skey.tid == tid)
  }

  lemma EngineIndex(st: State, a: Action, tid: Name)
    requires Refs(st) && Enabled(st, a) && (a.Announce? || a.Publish? || a.Drop? || a.Sweep?) && !Names(st, a, tid) && tid !in st.book.meta
    ensures tid !in Apply(st, a).book.meta
  {
    hide TaskRefs;
    if a.Announce? {
      AnnounceIndex(st, a.tid, a.preq, tid);
    } else if a.Publish? {
      PublishIndex(st, a.tid, a.preq, tid);
    }
  }

  lemma AnnounceIndex(st: State, tid: Name, preq: Name, other: Name)
    requires tid in st.book.meta ==> st.book.meta[tid] in st.book.sends
    requires other != tid && other !in st.book.meta
    ensures other !in ApplyAnnounce(st, tid, preq).book.meta
  {
  }

  lemma PublishIndex(st: State, tid: Name, preq: Name, other: Name)
    requires tid in st.book.meta ==> st.book.meta[tid] in st.book.sends
    requires other != tid && other !in st.book.meta
    ensures other !in ApplyPublish(st, tid, preq).book.meta
  {
  }

  lemma OpenIndex(st: State, a: Action, tid: Name)
    requires Refs(st) && Enabled(st, a) && (a.OpenStart? || a.OpenPoll?) && !Names(st, a, tid) && tid !in st.book.meta
    ensures tid !in Apply(st, a).book.meta
  {
    if a.OpenPoll? {
      PollIndex(st, a.t, tid);
    } else {
      BeginTally(st, a.t, 0);
      PollIndex(BeginOpen(st, a.t), a.t, tid);
    }
  }

  lemma PollIndex(st: State, t: Ref, tid: Name)
    requires t in st.tasks && st.tasks[t].pc.OpenPolling? && st.tasks[t].pc.send in st.book.sends && tid !in st.book.meta
    ensures tid !in ApplyOpenPoll(st, t).book.meta
  {
  }

  lemma IndexStep(st: State, a: Action, tid: Name)
    requires Refs(st) && Enabled(st, a) && ClaimsReady(st) && !Names(st, a, tid) && tid !in st.book.meta
    ensures tid !in Apply(st, a).book.meta
  {
    hide Refs, SessionsReady, Finishing, ApplyOpenPoll, ApplyOpenStart, ApplyAnnounce, ApplyPublish;
    if a.Announce? || a.Publish? || a.Drop? || a.Sweep? {
      EngineIndex(st, a, tid);
    } else if a.OpenStart? || a.OpenPoll? {
      OpenIndex(st, a, tid);
    } else if a.OpenDone? {
      DoneKeys(st, a.t, a.ok, a.total);
    } else {
      SessionStep(st, a);
      FinishingKeys(st.book, Apply(st, a).book);
    }
  }

  /** A transfer that was dropped or swept stays out of the index until it is announced,
      published or opened again. */
  lemma {:induction false} StaysForgotten(states: seq<State>, acts: seq<Action>, slotCount: nat, i: nat, j: nat, tid: Name)
    requires IsRun(states, acts, slotCount) && i < j < |states|
    requires acts[i] == Drop(tid) || acts[i] == Sweep(tid)
    requires forall k :: i < k < j ==> !Names(states[k], acts[k], tid)
    ensures tid !in states[j].book.meta
    decreases j
  {
    hide Refs, Enabled, Apply, ClaimsReady, Told, Names;
    if j == i + 1 {
      Forgotten(states[i], acts[i]);
    } else {
      StaysForgotten(states, acts, slotCount, i, j - 1, tid);
      RunTold(states, acts, slotCount, j - 1);
      IndexStep(states[j - 1], acts[j - 1], tid);
    }
  }

  lemma Forgotten(st: State, a: Action)
    requires Refs(st) && Enabled(st, a) && (a.Drop? || a.Sweep?)
    ensures a.tid !in Apply(st, a).book.meta
  {
    hide BookRefs, TaskRefs;
  }
}
