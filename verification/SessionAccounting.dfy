/** Who holds a claim on a send state.  With session keys opened once, and whatever
    else peers and engine do (duplicate or late pulls, surplus opens, repeated
    announcements, drops, sweeps), `sending` counts exactly the claims still held and
    every registered session is finished exactly once. */
module SessionAccounting {
  import opened Wrappers
  import opened SessionModel
  import opened SessionAbort

  ghost predicate FreshKey(st: State, skey: SessionKey) {
    && (forall t :: t in st.tasks && st.tasks[t].IsOpening() ==> st.tasks[t].skey != skey)
    && (forall o :: o in st.book.sessions ==> st.book.sessions[o].skey != skey)
  }

  // ----- Claims -----

  /** `t` still owes `_finish_send_meta` for its claim on `s`. */
  ghost predicate Holds(tasks: map<Ref, Task>, b: Book, t: Ref, s: Ref) {
    || (t in tasks && tasks[t].pc == OpenJob(s))
    || (Live(b, t) && b.sessions[t].send == s)
  }

  ghost function Holders(tasks: map<Ref, Task>, b: Book, s: Ref): set<Ref> {
    set t | t in tasks.Keys + b.sessions.Keys && Holds(tasks, b, t, s)
  }

  /** `sending` is the number of claimed-but-unregistered opens plus live sessions. */
  ghost predicate SendingExact(tasks: map<Ref, Task>, b: Book) {
    forall s :: s in b.sends ==> b.sends[s].sending == |Holders(tasks, b, s)|
  }

  /** Claims change hands at `(t, s)` only. */
  ghost predicate HoldsElsewhere(tasks: map<Ref, Task>, b: Book, tasks': map<Ref, Task>, b': Book, t: Ref, s: Ref) {
    forall u, r :: r in b.sends && (u != t || r != s) ==> Holds(tasks', b', u, r) == Holds(tasks, b, u, r)
  }

  ghost function Held(tasks: map<Ref, Task>, b: Book, t: Ref, s: Ref): int {
    if Holds(tasks, b, t, s) then 1 else 0
  }

  ghost predicate SendingFollows(tasks: map<Ref, Task>, b: Book, tasks': map<Ref, Task>, b': Book, t: Ref, s: Ref) {
    && HoldsElsewhere(tasks, b, tasks', b', t, s)
    && (forall r :: r in b'.sends && r in b.sends ==>
          b'.sends[r].sending == b.sends[r].sending + (if r == s then Held(tasks', b', t, s) - Held(tasks, b, t, s) else 0))
    && (forall r :: r in b'.sends && r !in b.sends ==> b'.sends[r].sending == 0 && forall u :: !Holds(tasks', b', u, r))
  }

  lemma InHolders(tasks: map<Ref, Task>, b: Book, s: Ref, u: Ref)
    ensures u in Holders(tasks, b, s) <==> Holds(tasks, b, u, s)
  {
  }

  lemma ChangeOne(h: set<Ref>, h': set<Ref>, t: Ref)
    requires forall u :: u != t ==> (u in h <==> u in h')
    ensures |h'| - |h| == (if t in h' then 1 else 0) - (if t in h then 1 else 0)
  {
    assert h' - {t} == h - {t};
    assert |h| == |h - {t}| + (if t in h then 1 else 0);
    assert |h'| == |h' - {t}| + (if t in h' then 1 else 0);
  }

  lemma SendingStep(tasks: map<Ref, Task>, b: Book, tasks': map<Ref, Task>, b': Book, t: Ref, s: Ref)
    requires SendingExact(tasks, b) && SendingFollows(tasks, b, tasks', b', t, s)
    ensures SendingExact(tasks', b')
  {
    forall r | r in b'.sends ensures b'.sends[r].sending == |Holders(tasks', b', r)| {
      var h, h' := Holders(tasks, b, r), Holders(tasks', b', r);
      forall u ensures (u in h <==> Holds(tasks, b, u, r)) && (u in h' <==> Holds(tasks', b', u, r)) {
        InHolders(tasks, b, r, u);
        InHolders(tasks', b', r, u);
      }
      hide Holders, Holds;
      if r !in b.sends {
        assert h' == {};
      } else {
        ChangeOne(h, h', t);
      }
    }
  }

  lemma HolderPositive(tasks: map<Ref, Task>, b: Book, t: Ref, s: Ref)
    requires SendingExact(tasks, b) && s in b.sends && Holds(tasks, b, t, s)
    ensures b.sends[s].sending > 0
  {
    InHolders(tasks, b, s, t);
  }

  // ----- Sessions -----

  ghost predicate KeysUnique(tasks: map<Ref, Task>, b: Book) {
    && (forall o, p :: o in b.sessions && p in b.sessions && b.sessions[o].skey == b.sessions[p].skey ==> o == p)
    && (forall t, o :: t in tasks && tasks[t].IsOpening() && o in b.sessions ==> tasks[t].skey != b.sessions[o].skey)
    && (forall t, u :: t in tasks && u in tasks && t != u && tasks[t].IsOpening() && tasks[u].IsOpening() ==> tasks[t].skey != tasks[u].skey)
  }

  /** `_finish_send_meta` has been called once for every registered session that is no longer live. */
  ghost predicate FinishedOnce(b: Book) {
    forall o :: b.finishes[o] == if o in b.sessions && !Live(b, o) then 1 else 0
  }

  /** `b'` is `b` after `_finish_send_meta` for the live session `o`. */
  ghost predicate Retired(b: Book, b': Book, o: Ref)
  {
    && Live(b, o) && b.sessions[o].send in b.sends
    && b'.producers == b.producers - {b.sessions[o].skey} && b'.finishes == b.finishes + multiset{o}
    && b'.sessions.Keys == b.sessions.Keys && (forall p :: p in b.sessions && p != o ==> b'.sessions[p] == b.sessions[p])
    && SameButPhase(b.sessions[o], b'.sessions[o]) && b'.sessions[o].phase != Active
    && b'.sends.Keys == b.sends.Keys
    && (forall s :: s in b.sends ==>
          b'.sends[s].sending == b.sends[s].sending - (if s == b.sessions[o].send then 1 else 0))
  }

  lemma DiscardRetires(b: Book, o: Ref)
    requires HasSession(b, o) && Live(b, o) && b.sessions[o].Over()
    ensures Retired(b, Discard(b, o), o)
  {
  }

  lemma CompleteRetires(b: Book, o: Ref)
    requires HasSession(b, o) && Live(b, o)
    ensures Retired(b, CompleteSession(b, o), o)
  {
  }

  lemma RetiredLive(tasks: map<Ref, Task>, b: Book, b': Book, o: Ref)
    requires KeysUnique(tasks, b) && Retired(b, b', o)
    ensures forall p :: Live(b', p) <==> Live(b, p) && p != o
  {
  }

  lemma RetiredSending(tasks: map<Ref, Task>, b: Book, b': Book, o: Ref)
    requires KeysUnique(tasks, b) && SendingExact(tasks, b) && Retired(b, b', o)
    requires o in tasks ==> !tasks[o].IsOpening()
    ensures SendingExact(tasks, b') && b.sends[b.sessions[o].send].sending > 0
  {
    RetiredLive(tasks, b, b', o);
    var s := b.sessions[o].send;
    InHolders(tasks, b, s, o);
    hide KeysUnique, SendingExact;
    SendingStep(tasks, b, tasks, b', o, s);
  }

  lemma RetiredKeys(tasks: map<Ref, Task>, b: Book, b': Book, o: Ref)
    requires KeysUnique(tasks, b) && Retired(b, b', o)
    ensures KeysUnique(tasks, b')
  {
  }

  lemma RetiredGone(b: Book, b': Book, o: Ref)
    requires Retired(b, b', o)
    ensures HasSession(b', o) && !Live(b', o)
  {
  }

  lemma PutSessionLive(b: Book, o: Ref, x: Session)
    requires o in b.sessions && x.skey == b.sessions[o].skey
    ensures forall p :: Live(PutSession(b, o, x), p) == Live(b, p)
  {
  }

  lemma PutSessionSending(tasks: map<Ref, Task>, b: Book, o: Ref, x: Session)
    requires SendingExact(tasks, b) && o in b.sessions && x.skey == b.sessions[o].skey && x.send == b.sessions[o].send
    ensures SendingExact(tasks, PutSession(b, o, x))
  {
    PutSessionLive(b, o, x);
    var b' := PutSession(b, o, x);
    assert forall u, r :: Holds(tasks, b', u, r) == Holds(tasks, b, u, r);
    hide Holds, SendingExact;
    SendingStep(tasks, b, tasks, b', o, x.send);
  }

  // ----- Send states -----

  ghost predicate SameSessions(b: Book, b': Book) {
    b'.sessions == b.sessions && b'.producers == b.producers && b'.finishes == b.finishes
  }

  ghost predicate SendsKept(b: Book, b': Book, next: Ref) {
    && (forall r :: r in b.sends ==> r in b'.sends && b'.sends[r].sending == b.sends[r].sending)
    && (forall r :: r in b'.sends && r !in b.sends ==> r >= next && b'.sends[r].sending == 0)
  }

  /** New send states belong to nobody. */
  lemma KeptFollows(st: State, tasks': map<Ref, Task>, b': Book)
    requires Refs(st) && SameSessions(st.book, b') && SendsKept(st.book, b', st.next)
    requires forall t :: t in st.tasks && st.tasks[t].pc.OpenJob? ==> t in tasks' && tasks'[t].pc == st.tasks[t].pc
    requires forall t :: t in tasks' && tasks'[t].pc.OpenJob? ==> t in st.tasks && tasks'[t].pc == st.tasks[t].pc
    ensures SendingFollows(st.tasks, st.book, tasks', b', 0, 0)
  {
    assert forall u, r :: Holds(tasks', b', u, r) == Holds(st.tasks, st.book, u, r);
    forall r, u | r in b'.sends && r !in st.book.sends ensures !Holds(tasks', b', u, r) {
      assert u in st.tasks ==> TaskRefs(st.book, st.tasks[u]);
    }
    hide Holds;
  }

  lemma AnnounceKeeps(st: State, tid: Name, preq: Name)
    requires tid in st.book.meta ==> st.book.meta[tid] in st.book.sends
    requires forall s :: s in st.book.sends ==> s < st.next
    ensures SameSessions(st.book, ApplyAnnounce(st, tid, preq).book)
    ensures SendsKept(st.book, ApplyAnnounce(st, tid, preq).book, st.next)
  {
  }

  lemma PutSendKeeps(b: Book, b': Book, s: Ref, e: SendState, next: Ref)
    requires b'.sends == b.sends[s := e]
    requires if s in b.sends then e.sending == b.sends[s].sending else s >= next && e.sending == 0
    ensures SendsKept(b, b', next)
  {
  }

  lemma EngineKeeps(st: State, a: Action)
    requires Refs(st) && Enabled(st, a) && (a.Announce? || a.Publish? || a.Drop? || a.Sweep?)
    ensures SameSessions(st.book, Apply(st, a).book) && SendsKept(st.book, Apply(st, a).book, st.next)
  {
    var b, b' := st.book, Apply(st, a).book;
    if a.Announce? {
      AnnounceKeeps(st, a.tid, a.preq);
    } else if a.Publish? {
      hide SendsKept;
      if a.tid !in b.meta {
        PutSendKeeps(b, b', st.next, NewSend(a.tid, Some(a.preq)), st.next);
      } else {
        var s := b.meta[a.tid];
        PutSendKeeps(b, b', s, if b.sends[s].preq.None? then b.sends[s].(preq := Some(a.preq)) else b.sends[s], st.next);
      }
    } else {
      assert b'.sends == b.sends;
    }
  }

  // ----- Opens -----

  lemma NewTaskKeys(st: State, task: Task)
    requires KeysUnique(st.tasks, st.book) && st.next !in st.tasks && (task.IsOpening() ==> FreshKey(st, task.skey))
    ensures KeysUnique(st.tasks[st.next := task], st.book)
  {
  }

  function Gains(pc: Handler, pc': Handler): int {
    (if pc'.OpenJob? then 1 else 0) - (if pc.OpenJob? then 1 else 0)
  }

  /** An unregistered open changes the claim it holds, and `sending` follows. */
  lemma ClaimFollows(tasks: map<Ref, Task>, b: Book, t: Ref, pc: Handler, b': Book, s: Ref)
    requires t in tasks && t !in b.sessions && SameSessions(b, b') && b'.sends.Keys == b.sends.Keys
    requires (tasks[t].pc.OpenJob? ==> tasks[t].pc.send == s) && (pc.OpenJob? ==> pc.send == s)
    requires forall r :: r in b.sends ==> b'.sends[r].sending == b.sends[r].sending + (if r == s then Gains(tasks[t].pc, pc) else 0)
    ensures SendingFollows(tasks, b, tasks[t := tasks[t].(pc := pc)], b', t, s)
  {
    assert forall p :: Live(b', p) == Live(b, p);
    hide Live;
  }

  /** `sending` changes by d on s and nowhere else, and sessions not at all. */
  ghost predicate Shifts(b: Book, b': Book, s: Ref, d: int) {
    && SameSessions(b, b') && b'.sends.Keys == b.sends.Keys
    && forall r :: r in b.sends ==> b'.sends[r].sending == b.sends[r].sending + (if r == s then d else 0)
  }

  lemma ClaimShifts(b: Book, s: Ref, ranks: nat)
    requires s in b.sends
    ensures Shifts(b, PutSend(b, s, Claim(b.sends[s], ranks)), s, 1)
    ensures Shifts(b, FinishSend(PutSend(b, s, Claim(b.sends[s], ranks)), s), s, 0)
  {
  }

  lemma AbandonShifts(b: Book, s: Ref, created: bool)
    requires s in b.sends
    ensures Shifts(b, AbandonOpen(b, s, created), s, 0)
  {
  }

  /** Polling once changes no claim, or adds one on the polled state. */
  lemma PollShifts(st: State, t: Ref)
    requires t in st.tasks && st.tasks[t].pc.OpenPolling? && st.tasks[t].pc.send in st.book.sends
    ensures t in ApplyOpenPoll(st, t).tasks
    ensures Shifts(st.book, ApplyOpenPoll(st, t).book, st.tasks[t].pc.send, Gains(st.tasks[t].pc, ApplyOpenPoll(st, t).tasks[t].pc))
  {
    hide Shifts, FinishSend, AbandonOpen, Claim;
    ClaimShifts(st.book, st.tasks[t].pc.send, st.tasks[t].pc.ranks);
    AbandonShifts(st.book, st.tasks[t].pc.send, st.tasks[t].pc.created);
    assert Shifts(st.book, st.book, st.tasks[t].pc.send, 0) by { NoShift(st.book, st.tasks[t].pc.send); }
  }

  lemma NoShift(b: Book, s: Ref)
    ensures Shifts(b, b, s, 0)
  {
  }

  lemma PollMoves(st: State, t: Ref)
    requires t in st.tasks && st.tasks[t].pc.OpenPolling? && st.tasks[t].pc.send in st.book.sends
    ensures var st', s := ApplyOpenPoll(st, t), st.tasks[t].pc.send;
      && t in st'.tasks && st'.tasks == st.tasks[t := st.tasks[t].(pc := st'.tasks[t].pc)]
      && (st'.tasks[t].pc.OpenJob? ==> st'.tasks[t].pc.send == s)
  {
    hide FinishSend, AbandonOpen, Claim;
  }

  lemma OpenPollFollows(st: State, t: Ref)
    requires Refs(st) && t in st.tasks && st.tasks[t].pc.OpenPolling?
    ensures SameSessions(st.book, ApplyOpenPoll(st, t).book)
    ensures SendingFollows(st.tasks, st.book, ApplyOpenPoll(st, t).tasks, ApplyOpenPoll(st, t).book, t, st.tasks[t].pc.send)
  {
    hide SendingFollows, BookRefs, ApplyOpenPoll, SameSessions;
    var st' := ApplyOpenPoll(st, t);
    PollShifts(st, t);
    PollMoves(st, t);
    ClaimFollows(st.tasks, st.book, t, st'.tasks[t].pc, st'.book, st.tasks[t].pc.send);
  }

  lemma RegisterLive(tasks: map<Ref, Task>, b: Book, t: Ref, total: nat)
    requires KeysUnique(tasks, b) && t in tasks && tasks[t].pc.OpenJob? && t !in b.sessions
    requires forall k :: k in b.producers ==> b.producers[k] in b.sessions && b.sessions[b.producers[k]].skey == k
    ensures forall p :: Live(Register(b, t, tasks[t], tasks[t].pc.send, total), p) <==> Live(b, p) || p == t
  {
    var b' := Register(b, t, tasks[t], tasks[t].pc.send, total);
    assert tasks[t].IsOpening();
    forall p | Live(b, p) ensures Live(b', p) { assert b.sessions[p].skey != tasks[t].skey; }
  }

  lemma RegisterKeys(tasks: map<Ref, Task>, b: Book, t: Ref, total: nat)
    requires KeysUnique(tasks, b) && t in tasks && tasks[t].pc.OpenJob? && t !in b.sessions
    ensures KeysUnique(tasks[t := tasks[t].(pc := Responding)], Register(b, t, tasks[t], tasks[t].pc.send, total))
  {
    assert tasks[t].IsOpening();
  }

  lemma RegisterSending(tasks: map<Ref, Task>, b: Book, t: Ref, total: nat)
    requires SendingExact(tasks, b) && t in tasks && tasks[t].pc.OpenJob? && t !in b.sessions
    requires forall p :: Live(Register(b, t, tasks[t], tasks[t].pc.send, total), p) <==> Live(b, p) || p == t
    ensures SendingExact(tasks[t := tasks[t].(pc := Responding)], Register(b, t, tasks[t], tasks[t].pc.send, total))
  {
    var b' := Register(b, t, tasks[t], tasks[t].pc.send, total);
    var tasks' := tasks[t := tasks[t].(pc := Responding)];
    forall u, r ensures Holds(tasks', b', u, r) == Holds(tasks, b, u, r) { assert Live(b, u) ==> u != t; }
    hide Holds, SendingExact;
    SendingStep(tasks, b, tasks', b', t, tasks[t].pc.send);
  }

  lemma NextUnused(st: State)
    requires Refs(st)
    ensures st.next !in st.book.sessions
  {
  }

  lemma TargetHasSession(st: State, t: Ref, target: Option<Ref>)
    requires Refs(st) && Enabled(st, AbortStart(t, target)) && target.Some?
    ensures HasSession(st.book, target.value)
  {
  }

  // ----- The invariant -----

  /** Every index entry names its own session, and sessions have their send state. */
  ghost predicate Indexes(b: Book) {
    && (forall k :: k in b.producers ==> b.producers[k] in b.sessions && b.sessions[b.producers[k]].skey == k)
    && (forall o :: o in b.sessions ==> b.sessions[o].send in b.sends)
  }

  ghost predicate Wired(tasks: map<Ref, Task>, b: Book) {
    Indexes(b) && forall t :: t in tasks && tasks[t].IsOpening() ==> t !in b.sessions
  }

  ghost predicate Accounts(tasks: map<Ref, Task>, b: Book) {
    Wired(tasks, b) && KeysUnique(tasks, b) && SendingExact(tasks, b) && FinishedOnce(b)
  }

  lemma RefsWired(st: State)
    requires Refs(st)
    ensures Wired(st.tasks, st.book)
  {
    hide TaskRefs;
  }

  /** A session's record changes in place. */
  lemma PutAccounts(tasks: map<Ref, Task>, b: Book, o: Ref, x: Session)
    requires Accounts(tasks, b) && o in b.sessions && x.skey == b.sessions[o].skey && x.send == b.sessions[o].send
    ensures Accounts(tasks, PutSession(b, o, x))
  {
    hide SendingExact;
    PutSessionSending(tasks, b, o, x);
    PutSessionLive(b, o, x);
    hide Live;
  }

  lemma RetiredWired(tasks: map<Ref, Task>, b: Book, b': Book, o: Ref)
    requires Wired(tasks, b) && Retired(b, b', o)
    ensures Wired(tasks, b')
  {
  }

  lemma RetiredFinished(tasks: map<Ref, Task>, b: Book, b': Book, o: Ref)
    requires KeysUnique(tasks, b) && FinishedOnce(b) && Retired(b, b', o)
    ensures FinishedOnce(b')
  {
    RetiredLive(tasks, b, b', o);
    hide KeysUnique, Live;
  }

  lemma RetiredAccounts(tasks: map<Ref, Task>, b: Book, b': Book, o: Ref)
    requires Accounts(tasks, b) && Retired(b, b', o) && o in b.sessions
    ensures Accounts(tasks, b')
  {
    assert o in tasks ==> !tasks[o].IsOpening();
    hide Wired, KeysUnique, SendingExact, FinishedOnce, Retired;
    RetiredWired(tasks, b, b', o);
    RetiredSending(tasks, b, b', o);
    RetiredKeys(tasks, b, b', o);
    RetiredFinished(tasks, b, b', o);
  }

  /** The key of a session that is no longer registered indexes nothing. */
  lemma ForgetDead(tasks: map<Ref, Task>, b: Book, o: Ref)
    requires Wired(tasks, b) && KeysUnique(tasks, b) && o in b.sessions && !Live(b, o)
    ensures Forget(b, b.sessions[o].skey) == b
  {
    assert b.sessions[o].skey !in b.producers;
    assert b.producers - {b.sessions[o].skey} == b.producers;
  }

  lemma SettleAccounts(tasks: map<Ref, Task>, b: Book, o: Ref)
    requires Accounts(tasks, b) && HasSession(b, o)
    ensures Accounts(tasks, Settle(b, o))
  {
    hide Wired, KeysUnique, SendingExact, FinishedOnce, Retired;
    if !Live(b, o) {
      ForgetDead(tasks, b, o);
    } else if b.sessions[o].Over() {
      DiscardRetires(b, o);
      RetiredAccounts(tasks, b, Discard(b, o), o);
    }
  }

  lemma CompleteAccounts(tasks: map<Ref, Task>, b: Book, o: Ref)
    requires Accounts(tasks, b) && HasSession(b, o)
    ensures Accounts(tasks, CompleteSession(b, o))
  {
    hide Wired, KeysUnique, SendingExact, FinishedOnce, Retired;
    if !Live(b, o) {
      ForgetDead(tasks, b, o);
    } else {
      CompleteRetires(b, o);
      RetiredAccounts(tasks, b, CompleteSession(b, o), o);
    }
  }

  lemma PhaseAccounts(tasks: map<Ref, Task>, b: Book, o: Ref, phase: Phase)
    requires Accounts(tasks, b) && HasSession(b, o)
    ensures Accounts(tasks, SetPhase(b, o, phase)) && HasSession(SetPhase(b, o, phase), o)
  {
    hide Accounts;
    PutAccounts(tasks, b, o, b.sessions[o].(phase := phase));
  }

  lemma UncountAccounts(tasks: map<Ref, Task>, b: Book, o: Ref)
    requires Accounts(tasks, b) && HasSession(b, o)
    ensures Accounts(tasks, Uncount(b, o))
  {
    hide Accounts;
    var x := b.sessions[o].(inflight := b.sessions[o].inflight - 1);
    PutAccounts(tasks, b, o, x);
    SettleAccounts(tasks, PutSession(b, o, x), o);
  }

  lemma CancelAccounts(tasks: map<Ref, Task>, b: Book, o: Ref)
    requires Accounts(tasks, b) && HasSession(b, o)
    ensures Accounts(tasks, CancelSession(b, o))
  {
    hide Accounts, Settle;
    PhaseAccounts(tasks, b, o, Cancelled);
    SettleAccounts(tasks, SetPhase(b, o, Cancelled), o);
  }

  lemma StillHas(b: Book, order: seq<Ref>)
    requires order != [] && HasSessions(b, order)
    ensures HasSession(b, order[0]) && HasSessions(CancelSession(b, order[0]), order[1..])
  {
    var b1 := CancelSession(b, order[0]);
    CancelCloses(b, order[0]);
    hide CancelSession;
    forall i | 0 <= i < |order[1..]| ensures HasSession(b1, order[1..][i]) {
      assert order[1..][i] == order[i + 1] && HasSession(b, order[i + 1]);
      assert SameButPhase(b.sessions[order[i + 1]], b1.sessions[order[i + 1]]);
    }
  }

  lemma {:induction false} CancelAllAccounts(tasks: map<Ref, Task>, b: Book, order: seq<Ref>)
    requires Accounts(tasks, b) && HasSessions(b, order)
    ensures Accounts(tasks, CancelAll(b, order))
    decreases |order|
  {
    hide Accounts, CancelSession, HasSessions;
    if order != [] {
      StillHas(b, order);
      CancelAccounts(tasks, b, order[0]);
      CancelAllAccounts(tasks, CancelSession(b, order[0]), order[1..]);
    }
  }

  // ----- Handlers -----

  /** Handlers move; opens that go on keep their number and key, and open jobs stay. */
  ghost predicate SameOpens(tasks: map<Ref, Task>, tasks': map<Ref, Task>) {
    && (forall t :: t in tasks' && tasks'[t].IsOpening() ==> t in tasks && tasks[t].IsOpening() && tasks[t].skey == tasks'[t].skey)
    && (forall t :: t in tasks && tasks[t].pc.OpenJob? ==> t in tasks' && tasks'[t].pc == tasks[t].pc)
    && (forall t :: t in tasks' && tasks'[t].pc.OpenJob? ==> t in tasks && tasks'[t].pc == tasks[t].pc)
  }

  lemma SameOpensSending(tasks: map<Ref, Task>, tasks': map<Ref, Task>, b: Book)
    requires SendingExact(tasks, b) && SameOpens(tasks, tasks')
    ensures SendingExact(tasks', b)
  {
    hide SendingExact, Live;
    assert forall u, r :: Holds(tasks', b, u, r) == Holds(tasks, b, u, r);
    hide Holds;
    SendingStep(tasks, b, tasks', b, 0, 0);
  }

  lemma MovesAccounts(tasks: map<Ref, Task>, tasks': map<Ref, Task>, b: Book)
    requires Accounts(tasks, b) && SameOpens(tasks, tasks')
    ensures Accounts(tasks', b)
  {
    hide SendingExact, FinishedOnce;
    SameOpensSending(tasks, tasks', b);
  }

  /** A handler that neither opens nor holds an open job moves on. */
  lemma LeaveAccounts(tasks: map<Ref, Task>, b: Book, t: Ref, pc: Handler)
    requires Accounts(tasks, b) && t in tasks && !tasks[t].IsOpening() && !tasks[t].(pc := pc).IsOpening()
    ensures Accounts(tasks[t := tasks[t].(pc := pc)], b)
  {
    hide Accounts;
    MovesAccounts(tasks, tasks[t := tasks[t].(pc := pc)], b);
  }

  /** Send states change, and with them at most the claim of t on s. */
  lemma SendsAccounts(tasks: map<Ref, Task>, tasks': map<Ref, Task>, b: Book, b': Book, t: Ref, s: Ref)
    requires Accounts(tasks, b) && SameSessions(b, b') && b.sends.Keys <= b'.sends.Keys
    requires KeysUnique(tasks', b) && (forall u :: u in tasks' && tasks'[u].IsOpening() ==> u !in b.sessions)
    requires SendingFollows(tasks, b, tasks', b', t, s)
    ensures Accounts(tasks', b')
  {
    hide SendingExact, SendingFollows, FinishedOnce;
    SendingStep(tasks, b, tasks', b', t, s);
    SameFinished(b, b');
  }

  lemma SameFinished(b: Book, b': Book)
    requires FinishedOnce(b) && SameSessions(b, b')
    ensures FinishedOnce(b')
  {
    assert forall p :: Live(b', p) == Live(b, p);
    hide Live;
  }

  lemma OpensKept(tasks: map<Ref, Task>, b: Book, t: Ref, pc: Handler)
    requires Wired(tasks, b) && KeysUnique(tasks, b) && t in tasks && tasks[t].IsOpening()
    ensures var tasks' := tasks[t := tasks[t].(pc := pc)];
      KeysUnique(tasks', b) && forall u :: u in tasks' && tasks'[u].IsOpening() ==> u !in b.sessions
  {
  }

  // ----- Every step keeps the accounts -----

  /** The one promise the accounts need: an open brings a session key of its own. */
  ghost predicate UniqueKey(st: State, a: Action) {
    a.Dispatch? && a.request.OpenRequest? ==> FreshKey(st, a.skey)
  }

  lemma EngineAccounts(st: State, a: Action)
    requires Refs(st) && Accounts(st.tasks, st.book) && Enabled(st, a) && (a.Announce? || a.Publish? || a.Drop? || a.Sweep?)
    ensures Accounts(st.tasks, Apply(st, a).book)
  {
    var b' := Apply(st, a).book;
    EngineKeeps(st, a);
    KeptFollows(st, st.tasks, b');
    hide SendingFollows, SendingExact, FinishedOnce, BookRefs, TaskRefs, Apply, Enabled;
    SendsAccounts(st.tasks, st.tasks, st.book, b', 0, 0);
  }

  lemma DispatchAccounts(st: State, skey: SessionKey, nonce: Name, request: Request)
    requires Refs(st) && Accounts(st.tasks, st.book) && (request.OpenRequest? ==> FreshKey(st, skey))
    ensures Accounts(ApplyDispatch(st, skey, nonce, request).tasks, st.book)
  {
    hide SendingExact, KeysUnique, FinishedOnce, BookRefs, Wired;
    var b, tasks' := st.book, ApplyDispatch(st, skey, nonce, request).tasks;
    assert st.next !in st.tasks && st.next !in b.sessions by { NextUnused(st); }
    NewTaskKeys(st, NewTask(skey, nonce, request));
    KeptFollows(st, tasks', b);
    RefsWired(st);
    NewOpening(st, tasks');
    hide SendingFollows, Refs;
    SendsAccounts(st.tasks, tasks', b, b, 0, 0);
  }

  lemma NewOpening(st: State, tasks': map<Ref, Task>)
    requires Wired(st.tasks, st.book) && st.next !in st.book.sessions
    requires forall u :: u in tasks' && u != st.next ==> u in st.tasks && tasks'[u] == st.tasks[u]
    ensures forall u :: u in tasks' && tasks'[u].IsOpening() ==> u !in st.book.sessions
  {
  }

  lemma BeginOpenAccounts(st: State, t: Ref)
    requires Refs(st) && Accounts(st.tasks, st.book) && t in st.tasks && st.tasks[t].pc.OpenNew?
    ensures Accounts(BeginOpen(st, t).tasks, BeginOpen(st, t).book)
  {
    hide SendingExact, KeysUnique, FinishedOnce, Wired;
    var st' := BeginOpen(st, t);
    OpensKept(st.tasks, st.book, t, st'.tasks[t].pc);
    KeptFollows(st, st'.tasks, st'.book);
    hide SendingFollows, Refs;
    SendsAccounts(st.tasks, st'.tasks, st.book, st'.book, 0, 0);
  }

  lemma OpenPollAccounts(st: State, t: Ref)
    requires Refs(st) && Accounts(st.tasks, st.book) && t in st.tasks && st.tasks[t].pc.OpenPolling?
    ensures Accounts(ApplyOpenPoll(st, t).tasks, ApplyOpenPoll(st, t).book)
  {
    hide SendingExact, KeysUnique, FinishedOnce, Wired, SendingFollows, BookRefs;
    var st' := ApplyOpenPoll(st, t);
    assert st'.tasks == st.tasks[t := st.tasks[t].(pc := st'.tasks[t].pc)];
    assert st.book.sends.Keys <= st'.book.sends.Keys;
    OpensKept(st.tasks, st.book, t, st'.tasks[t].pc);
    OpenPollFollows(st, t);
    hide Refs, ApplyOpenPoll;
    SendsAccounts(st.tasks, st'.tasks, st.book, st'.book, t, st.tasks[t].pc.send);
  }

  lemma OpenStartAccounts(st: State, t: Ref)
    requires Refs(st) && Accounts(st.tasks, st.book) && t in st.tasks && st.tasks[t].pc.OpenNew?
    ensures Accounts(ApplyOpenStart(st, t).tasks, ApplyOpenStart(st, t).book)
  {
    hide Accounts, TaskRefs, ApplyOpenPoll;
    BeginOpenRefs(st, t);
    BeginOpenAccounts(st, t);
    OpenPollAccounts(BeginOpen(st, t), t);
  }

  lemma OpenFailAccounts(st: State, t: Ref)
    requires Refs(st) && Accounts(st.tasks, st.book) && t in st.tasks && st.tasks[t].pc.OpenJob?
    ensures Accounts(ApplyOpenDone(st, t, false, 0).tasks, ApplyOpenDone(st, t, false, 0).book)
  {
    hide SendingExact, KeysUnique, FinishedOnce, Wired, SendingFollows, BookRefs;
    var st' := ApplyOpenDone(st, t, false, 0);
    OpensKept(st.tasks, st.book, t, Responding);
    ClaimFollows(st.tasks, st.book, t, Responding, st'.book, st.tasks[t].pc.send);
    hide Refs;
    SendsAccounts(st.tasks, st'.tasks, st.book, st'.book, t, st.tasks[t].pc.send);
  }

  lemma RegisterAccounts(st: State, t: Ref, total: nat)
    requires Refs(st) && Accounts(st.tasks, st.book) && t in st.tasks && st.tasks[t].pc.OpenJob?
    ensures var b' := Register(st.book, t, st.tasks[t], st.tasks[t].pc.send, total);
      Accounts(SetPc(st, t, Responding).tasks, b') && HasSession(b', t)
  {
    hide SendingExact, KeysUnique, BookRefs, FinishedOnce;
    var b', tasks' := Register(st.book, t, st.tasks[t], st.tasks[t].pc.send, total), SetPc(st, t, Responding).tasks;
    RegisterLive(st.tasks, st.book, t, total);
    RegisterKeys(st.tasks, st.book, t, total);
    RegisterSending(st.tasks, st.book, t, total);
    hide Live;
    assert FinishedOnce(b') by { RegisterFinished(st.book, b', t); }
    assert TaskRefs(st.book, st.tasks[t]);
    hide TaskRefs;
  }

  lemma RegisterFinished(b: Book, b': Book, t: Ref)
    requires FinishedOnce(b) && t !in b.sessions && b'.sessions.Keys == b.sessions.Keys + {t} && b'.finishes == b.finishes
    requires forall p :: Live(b', p) <==> Live(b, p) || p == t
    ensures FinishedOnce(b')
  {
    hide Live;
  }

  lemma OpenDoneAccounts(st: State, t: Ref, ok: bool, total: nat)
    requires Refs(st) && Accounts(st.tasks, st.book) && t in st.tasks && st.tasks[t].pc.OpenJob?
    ensures Accounts(ApplyOpenDone(st, t, ok, total).tasks, ApplyOpenDone(st, t, ok, total).book)
  {
    hide Accounts, BookRefs, Register, CompleteSession;
    if !ok {
      OpenFailAccounts(st, t);
    } else {
      RegisterAccounts(st, t, total);
      CompleteAccounts(SetPc(st, t, Responding).tasks, Register(st.book, t, st.tasks[t], st.tasks[t].pc.send, total), t);
    }
  }

  lemma PullStartAccounts(st: State, t: Ref)
    requires Refs(st) && Accounts(st.tasks, st.book) && t in st.tasks && st.tasks[t].pc.PullNew?
    ensures Accounts(ApplyPullStart(st, t).tasks, ApplyPullStart(st, t).book)
  {
    hide Accounts, Settle, TaskRefs;
    var task, b := st.tasks[t], st.book;
    LeaveAccounts(st.tasks, b, t, Responding);
    var tasks' := SetPc(st, t, Responding).tasks;
    if task.skey in b.producers {
      var o := b.producers[task.skey];
      LeaveAccounts(st.tasks, b, t, PullWaiting(task.pc.chunk, o));
      PutAccounts(SetPc(st, t, PullWaiting(task.pc.chunk, o)).tasks, b, o, CountPull(b.sessions[o], task.pc.chunk));
      PhaseAccounts(tasks', b, o, Failed);
      SettleAccounts(tasks', SetPhase(b, o, Failed), o);
    }
  }

  lemma PulledSession(st: State, t: Ref)
    requires Refs(st) && t in st.tasks && (st.tasks[t].pc.PullWaiting? || st.tasks[t].pc.PullEncoding? || st.tasks[t].pc.PullDraining?)
    ensures HasSession(st.book, st.tasks[t].pc.session)
  {
    assert TaskRefs(st.book, st.tasks[t]);
  }

  lemma PullSlotAccounts(st: State, t: Ref)
    requires Refs(st) && Accounts(st.tasks, st.book) && t in st.tasks && st.tasks[t].pc.PullWaiting? && st.slots != []
    ensures HasSession(st.book, st.tasks[t].pc.session)
    ensures Accounts(ApplyPullSlot(st, t).tasks, ApplyPullSlot(st, t).book)
  {
    PulledSession(st, t);
    hide Accounts, Refs;
    var PullWaiting(chunk, o) := st.tasks[t].pc;
    LeaveAccounts(st.tasks, st.book, t, PullEncoding(chunk, o, st.slots[0]));
    LeaveAccounts(st.tasks, st.book, t, PullDraining(chunk, o, st.slots[0]));
    PhaseAccounts(SetPc(st, t, PullDraining(chunk, o, st.slots[0])).tasks, st.book, o, Failed);
  }

  lemma EncodeDoneAccounts(st: State, t: Ref, ok: bool)
    requires Refs(st) && Accounts(st.tasks, st.book) && t in st.tasks && st.tasks[t].pc.PullEncoding?
    ensures HasSession(st.book, st.tasks[t].pc.session)
    ensures Accounts(ApplyEncodeDone(st, t, ok).tasks, ApplyEncodeDone(st, t, ok).book)
  {
    PulledSession(st, t);
    hide Accounts, Refs, Uncount, CompleteSession, Live;
    var PullEncoding(chunk, o, slot) := st.tasks[t].pc;
    if !ok {
      LeaveAccounts(st.tasks, st.book, t, PullDraining(chunk, o, slot));
      PhaseAccounts(SetPc(st, t, PullDraining(chunk, o, slot)).tasks, st.book, o, Failed);
    } else {
      var tasks', x := SetPc(st, t, Responding).tasks, CountDone(st.book.sessions[o], chunk);
      var b := PutSession(st.book, o, x);
      LeaveAccounts(st.tasks, st.book, t, Responding);
      PutAccounts(tasks', st.book, o, x);
      if Completes(x) {
        CompleteAccounts(tasks', b, o);
        CompleteHas(b, o);
        UncountAccounts(tasks', CompleteSession(b, o), o);
      } else {
        UncountAccounts(tasks', b, o);
      }
    }
  }

  lemma CompleteHas(b: Book, o: Ref)
    requires HasSession(b, o)
    ensures HasSession(CompleteSession(b, o), o)
  {
    CompleteCloses(b, o);
    assert SameButPhase(b.sessions[o], CompleteSession(b, o).sessions[o]);
  }

  lemma DrainDoneAccounts(st: State, t: Ref)
    requires Refs(st) && Accounts(st.tasks, st.book) && t in st.tasks && st.tasks[t].pc.PullDraining?
    ensures HasSession(st.book, st.tasks[t].pc.session)
    ensures Accounts(ApplyDrainDone(st, t).tasks, ApplyDrainDone(st, t).book)
  {
    PulledSession(st, t);
    hide Accounts, Refs, Uncount;
    LeaveAccounts(st.tasks, st.book, t, Responding);
    UncountAccounts(SetPc(st, t, Responding).tasks, st.book, st.tasks[t].pc.session);
  }

  lemma AbortStartAccounts(st: State, t: Ref, target: Option<Ref>)
    requires Refs(st) && t in st.tasks && st.tasks[t].pc.AbortNew? && (target.Some? ==> HasSession(st.book, target.value))
    requires Accounts(st.tasks, st.book)
    ensures Accounts(ApplyAbortStart(st, t, target).tasks, ApplyAbortStart(st, t, target).book)
  {
    hide Accounts, Refs, CancelSession;
    var st' := ApplyAbortStart(st, t, target);
    if target.Some? { CancelAccounts(st.tasks, st.book, target.value); }
    LeaveAccounts(st.tasks, st'.book, t, st'.tasks[t].pc);
  }

  lemma AbortEndAccounts(st: State, t: Ref, order: seq<Ref>, clean: bool)
    requires Refs(st) && Accounts(st.tasks, st.book) && t in st.tasks && st.tasks[t].pc.AbortDraining?
    requires ValidOrder(st.book, st.tasks[t].Key(), order)
    ensures HasSessions(st.book, order)
    ensures Accounts(ApplyAbortEnd(st, t, order, clean).tasks, ApplyAbortEnd(st, t, order, clean).book)
  {
    AbortEndGood(st.book, st.tasks[t].Key(), order, st.next);
    hide Accounts, Refs, CancelAll, ValidOrder;
    CancelAllAccounts(st.tasks, st.book, order);
    LeaveAccounts(st.tasks, CancelAll(st.book, order), t, AbortAcked(clean));
  }

  lemma RespondAccounts(st: State, t: Ref)
    requires Accounts(st.tasks, st.book) && t in st.tasks && (st.tasks[t].pc.Responding? || st.tasks[t].pc.AbortAcked?)
    ensures Accounts(ApplyRespond(st, t).tasks, st.book)
  {
    hide Accounts;
    MovesAccounts(st.tasks, st.tasks - {t}, st.book);
  }

  lemma StepAccounts(st: State, a: Action)
    requires Refs(st) && Accounts(st.tasks, st.book) && Enabled(st, a) && UniqueKey(st, a)
    ensures Accounts(Apply(st, a).tasks, Apply(st, a).book)
  {
    hide Accounts, BookRefs, TaskRefs, FreshKey;
    match a
    case Tick(_) =>
    case Announce(_, _) => EngineAccounts(st, a);
    case Publish(_, _) => EngineAccounts(st, a);
    case Drop(_) => EngineAccounts(st, a);
    case Sweep(_) => EngineAccounts(st, a);
    case Dispatch(skey, nonce, request) => DispatchAccounts(st, skey, nonce, request);
    case OpenStart(t) => OpenStartAccounts(st, t);
    case OpenPoll(t) => OpenPollAccounts(st, t);
    case OpenDone(t, ok, total) => OpenDoneAccounts(st, t, ok, total);
    case PullStart(t) => PullStartAccounts(st, t);
    case PullSlot(t) => PullSlotAccounts(st, t);
    case EncodeDone(t, ok) => EncodeDoneAccounts(st, t, ok);
    case DrainDone(t) => DrainDoneAccounts(st, t);
    case AbortStart(t, target) =>
      if target.Some? { TargetHasSession(st, t, target); }
      AbortStartAccounts(st, t, target);
    case AbortDrained(t, order) => AbortEndAccounts(st, t, order, true);
    case AbortTimedOut(t, order) => AbortEndAccounts(st, t, order, false);
    case Respond(t) => RespondAccounts(st, t);
  }

  // ----- Runs -----

  /** Any run in which no two opens bring the same session key. */
  ghost predicate IsUniqueRun(states: seq<State>, acts: seq<Action>, slotCount: nat) {
    IsRun(states, acts, slotCount) && forall i :: 0 <= i < |acts| ==> UniqueKey(states[i], acts[i])
  }

  lemma {:induction false} RunAccounts(states: seq<State>, acts: seq<Action>, slotCount: nat, i: nat)
    requires IsUniqueRun(states, acts, slotCount) && i < |states|
    ensures Accounts(states[i].tasks, states[i].book)
  {
    hide Refs, Enabled, Apply, UniqueKey;
    if i > 0 {
      RunAccounts(states, acts, slotCount, i - 1);
      hide Accounts;
      StepAccounts(states[i - 1], acts[i - 1]);
    }
  }

  /** Send accounting.  In every reachable state of every run with unique session keys,
      whatever is pulled twice or late, opened beyond need, announced again, dropped or
      swept: `sending` is the number of claimed-but-unregistered opens plus live
      sessions of the transfer, hence never negative, and `_finish_send_meta` has run
      exactly once for each registered session that is no longer live, not yet for a
      live one, and for nothing else. */
  lemma SendAccounting(states: seq<State>, acts: seq<Action>, slotCount: nat, i: nat)
    requires IsUniqueRun(states, acts, slotCount) && i < |states|
    ensures var st := states[i];
      && (forall s :: s in st.book.sends ==> st.book.sends[s].sending == |Holders(st.tasks, st.book, s)| >= 0)
      && (forall o :: st.book.finishes[o] == if o in st.book.sessions && !Live(st.book, o) then 1 else 0)
  {
    RunAccounts(states, acts, slotCount, i);
  }
}
