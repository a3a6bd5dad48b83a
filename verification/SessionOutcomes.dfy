/** What a chunk handler, an abort and an abandoned open leave, in terms of the session
    and the index they concern. */
module SessionOutcomes {
  import opened Wrappers
  import opened SessionModel
  import opened SessionAbort
  import opened SessionAccounting
  import opened SessionTimes

  /** Session o is cancelled or failed, and no longer registered once nothing is in flight. */
  ghost predicate Ended(b: Book, o: Ref) {
    && o in b.sessions && (b.sessions[o].phase == Cancelled || b.sessions[o].phase == Failed)
    && (b.sessions[o].inflight == 0 ==> !Live(b, o))
  }

  /** What `_discard_producer_session` does with each kind of session: one not registered
      under its key changes no count, a cancelled or failed one is a finished send, any
      other gives its claim back unsent. */
  lemma DiscardExactly(b: Book, o: Ref)
    requires HasSession(b, o)
    ensures var x, b' := b.sessions[o], Discard(b, o);
      var e, e' := b.sends[x.send], b'.sends[x.send];
      && b'.producers == b.producers - {x.skey} && b'.sessions == b.sessions && x.send in b'.sends
      && (!Live(b, o) ==> b'.sends == b.sends && b'.events == b.events && b'.finishes == b.finishes)
      && (Live(b, o) ==> b'.sends == b.sends[x.send := e'] && e'.sending == e.sending - 1)
      && (Live(b, o) && (x.phase == Cancelled || x.phase == Failed) ==> e'.sent == e.sent + 1 && b'.finishes == b.finishes + multiset{o})
      && (Live(b, o) && x.phase != Cancelled && x.phase != Failed ==> e'.sent == e.sent && b'.events == b.events && b'.meta == b.meta)
  {
  }

  lemma SettleEnds(b: Book, o: Ref)
    requires HasSession(b, o) && (b.sessions[o].phase == Cancelled || b.sessions[o].phase == Failed)
    ensures Ended(Settle(b, o), o) && Settle(b, o).sessions == b.sessions
    ensures forall p :: Live(Settle(b, o), p) ==> Live(b, p)
  {
    DiscardExactly(b, o);
    hide Discard;
  }

  // ----- Chunks -----

  /** A pull is counted exactly on a registered active session; any other registered
      session fails, and leaves the index when nothing of it is in flight. */
  lemma PullOutcome(st: State, t: Ref)
    requires Refs(st) && Enabled(st, PullStart(t))
    ensures var st', skey := Apply(st, PullStart(t)), st.tasks[t].skey;
      && t in st'.tasks
      && (skey !in st.book.producers ==> st'.tasks[t].pc == Responding && st'.book == st.book)
      && (skey in st.book.producers ==>
            var o := st.book.producers[skey];
            && o in st.book.sessions && o in st'.book.sessions
            && (if st.book.sessions[o].phase == Active
                then st'.tasks[t].pc == PullWaiting(st.tasks[t].pc.chunk, o)
                     && st'.book.sessions[o].inflight == st.book.sessions[o].inflight + 1 && st'.book.sessions[o].phase == Active
                else st'.tasks[t].pc == Responding && Ended(st'.book, o) && st'.book.sessions[o].inflight == st.book.sessions[o].inflight))
  {
    hide TaskRefs, Settle, Ended;
    var b, skey := st.book, st.tasks[t].skey;
    if skey in b.producers {
      var o := b.producers[skey];
      if b.sessions[o].phase != Active { SettleEnds(SetPhase(b, o, Failed), o); }
    }
  }

  /** With a slot in hand a pull encodes exactly when its session is still active and its
      key open; otherwise the session fails and the slot is drained. */
  lemma SlotOutcome(st: State, t: Ref)
    requires Refs(st) && Enabled(st, PullSlot(t)) && st.tasks[t].pc.session in st.book.sessions
    ensures var st', o := Apply(st, PullSlot(t)), st.tasks[t].pc.session;
      var active := st.book.sessions[o].phase == Active && st.tasks[t].Key() !in st.closed;
      && t in st'.tasks && o in st'.book.sessions && st'.slots == st.slots[1..]
      && (active ==> st'.tasks[t].pc == PullEncoding(st.tasks[t].pc.chunk, o, st.slots[0]) && st'.book == st.book)
      && (!active ==> st'.tasks[t].pc == PullDraining(st.tasks[t].pc.chunk, o, st.slots[0]) && st'.book.sessions[o].phase == Failed)
  {
    hide BookRefs, TaskRefs;
  }

  /** One chunk encoded: it is counted, its slot returned, and the session is complete and
      unregistered exactly when it was active and registered and this was its last chunk. */
  lemma EncodeOutcome(st: State, t: Ref)
    requires Refs(st) && Enabled(st, EncodeDone(t, true)) && HasSession(st.book, st.tasks[t].pc.session)
    ensures var st', o := Apply(st, EncodeDone(t, true)), st.tasks[t].pc.session;
      var x := st.book.sessions[o];
      var x' := if o in st'.book.sessions then st'.book.sessions[o] else x;
      && o in st'.book.sessions && t in st'.tasks && st'.tasks[t].pc == Responding && st'.slots == st.slots + [st.tasks[t].pc.slot]
      && x'.completed == x.completed + 1 && x'.inflight == x.inflight - 1
      && (x'.phase == Complete <==> x.phase == Complete || (x.phase == Active && x.completed + 1 == x.total && Live(st.book, o)))
      && (x.phase == Active && x.completed + 1 == x.total ==> !Live(st'.book, o))
      && (x.phase == Cancelled || x.phase == Failed ==> Ended(st'.book, o))
  {
    hide BookRefs, TaskRefs, Uncount, CompleteSession, Ended;
    var o := st.tasks[t].pc.session;
    ChunkCounted(st.book, o, st.tasks[t].pc.chunk);
  }

  lemma ChunkCounted(b: Book, o: Ref, chunk: nat)
    requires HasSession(b, o)
    ensures var x, b1 := b.sessions[o], PutSession(b, o, CountDone(b.sessions[o], chunk));
      HasSession(b1, o) && HasSession(CompleteSession(b1, o), o) &&
      var b' := if Completes(b1.sessions[o]) then Uncount(CompleteSession(b1, o), o) else Uncount(b1, o);
      var x' := if o in b'.sessions then b'.sessions[o] else x;
      && o in b'.sessions && x'.completed == x.completed + 1 && x'.inflight == x.inflight - 1
      && (x'.phase == Complete <==> x.phase == Complete || (x.phase == Active && x.completed + 1 == x.total && Live(b, o)))
      && (x.phase == Active && x.completed + 1 == x.total ==> !Live(b', o))
      && (x.phase == Cancelled || x.phase == Failed ==> Ended(b', o))
  {
    hide Uncount, CompleteSession, Ended;
    var x := CountDone(b.sessions[o], chunk);
    var b1 := PutSession(b, o, x);
    PutSessionLive(b, o, x);
    CompleteCloses(b1, o);
    CompleteOne(b1, o);
    CompleteForgets(b1, o);
    UncountOutcome(b1, o);
    UncountOutcome(CompleteSession(b1, o), o);
  }

  lemma CompleteForgets(b: Book, o: Ref)
    requires HasSession(b, o)
    ensures !Live(CompleteSession(b, o), o)
  {
  }

  lemma UncountOutcome(b: Book, o: Ref)
    requires HasSession(b, o)
    ensures var b' := Uncount(b, o);
      && b'.sessions == b.sessions[o := b.sessions[o].(inflight := b.sessions[o].inflight - 1)]
      && (Live(b', o) ==> Live(b, o))
      && (b.sessions[o].phase == Cancelled || b.sessions[o].phase == Failed ==> Ended(b', o))
  {
    hide Settle;
    var x := b.sessions[o].(inflight := b.sessions[o].inflight - 1);
    var b1 := PutSession(b, o, x);
    PutSessionLive(b, o, x);
    if x.Over() {
      SettleEnds(b1, o);
    } else {
      NotSettled(b1, o);
    }
  }

  lemma NotSettled(b: Book, o: Ref)
    requires HasSession(b, o) && b.sessions[o].phase != Cancelled && b.sessions[o].phase != Failed
    ensures Settle(b, o) == b
  {
  }

  /** A failed encode job fails its session; its slot is drained before it is returned. */
  lemma EncodeFailed(st: State, t: Ref)
    requires Refs(st) && Enabled(st, EncodeDone(t, false)) && HasSession(st.book, st.tasks[t].pc.session)
    ensures var st', o := Apply(st, EncodeDone(t, false)), st.tasks[t].pc.session;
      && o in st'.book.sessions && st'.book.sessions[o].phase == Failed && st'.slots == st.slots
      && t in st'.tasks && st'.tasks[t].pc == PullDraining(st.tasks[t].pc.chunk, o, st.tasks[t].pc.slot)
  {
    hide BookRefs, TaskRefs, Uncount, CompleteSession;
  }

  // ----- Aborts -----

  lemma CancelEnds(b: Book, o: Ref)
    requires HasSession(b, o)
    ensures var b' := CancelSession(b, o);
      && o in b'.sessions && b'.sessions[o].phase == Cancelled && Ended(b', o)
      && b'.sessions.Keys == b.sessions.Keys && (forall p :: p in b.sessions && p != o ==> b'.sessions[p] == b.sessions[p])
      && (forall p :: Live(b', p) ==> Live(b, p)) && b'.sessions[o].inflight == b.sessions[o].inflight
  {
    hide Settle, Ended;
    var x := b.sessions[o].(phase := Cancelled);
    PutSessionLive(b, o, x);
    SettleEnds(PutSession(b, o, x), o);
  }

  lemma {:induction false} CancelAllEnds(b: Book, order: seq<Ref>, o: Ref)
    requires HasSessions(b, order) && (o in order || Ended(b, o))
    ensures Ended(CancelAll(b, order), o)
    decreases |order|
  {
    hide Ended, CancelSession;
    if order != [] {
      var b1 := CancelSession(b, order[0]);
      CancelEnds(b, order[0]);
      CancelCloses(b, order[0]);
      assert HasSessions(b1, order[1..]) by {
        forall i | 0 <= i < |order[1..]| ensures HasSession(b1, order[1..][i]) { assert HasSession(b, order[i + 1]); }
      }
      if o != order[0] && o !in order[1..] { EndedKept(b, b1, order[0], o); }
      CancelAllEnds(b1, order[1..], o);
    }
  }

  lemma EndedKept(b: Book, b1: Book, first: Ref, o: Ref)
    requires Ended(b, o) && o != first && b1.sessions.Keys == b.sessions.Keys && (forall p :: Live(b1, p) ==> Live(b, p))
    requires forall p :: p in b.sessions && p != first ==> b1.sessions[p] == b.sessions[p]
    ensures Ended(b1, o)
  {
  }

  lemma {:induction false} CancelAllShrinks(b: Book, order: seq<Ref>, o: Ref)
    requires HasSessions(b, order)
    ensures Live(CancelAll(b, order), o) ==> Live(b, o)
    ensures o in CancelAll(b, order).sessions && o in b.sessions ==> CancelAll(b, order).sessions[o].Key() == b.sessions[o].Key()
    decreases |order|
  {
    CancelAllCloses(b, order);
    hide CancelAll;
    if o in CancelAll(b, order).sessions { assert SameButPhase(b.sessions[o], CancelAll(b, order).sessions[o]); }
  }

  /** When an abort is answered, cleanly or not, every session of its key has ended: it is
      cancelled or failed, and registered only while chunks of it are still in flight. */
  lemma AbortEndsAll(st: State, t: Ref, order: seq<Ref>, clean: bool, o: Ref)
    requires Refs(st) && t in st.tasks && HasSessions(st.book, order) && ValidOrder(st.book, st.tasks[t].Key(), order)
    requires var b' := ApplyAbortEnd(st, t, order, clean).book; Live(b', o) && b'.sessions[o].Key() == st.tasks[t].Key()
    ensures Ended(ApplyAbortEnd(st, t, order, clean).book, o) && ApplyAbortEnd(st, t, order, clean).book.sessions[o].inflight != 0
  {
    hide TaskRefs, BookRefs, CancelAll;
    CancelAllCloses(st.book, order);
    CancelAllShrinks(st.book, order, o);
    CancelAllEnds(st.book, order, o);
  }

  /** An abort's target with the same nonce is cancelled at once. */
  lemma AbortCancelsTarget(st: State, t: Ref, o: Ref)
    requires t in st.tasks && HasSession(st.book, o) && st.book.sessions[o].nonce == st.tasks[t].nonce
    ensures var b' := ApplyAbortStart(st, t, Some(o)).book;
      o in b'.sessions && b'.sessions[o].phase == Cancelled && (b'.sessions[o].inflight == 0 ==> !Live(b', o))
  {
    hide CancelSession;
    CancelEnds(st.book, o);
  }

  // ----- Abandoned opens -----

  /** An open that gives up takes its transfer out of the index exactly when it put it
      there, nobody has announced or named it since, and no claim is held on it; and it
      changes nothing else of the book. */
  lemma AbandonExactly(st: State, t: Ref, tid: Name)
    requires Refs(st) && Enabled(st, OpenPoll(t)) && st.tasks[t].pc.send in st.book.sends
    requires !st.book.sends[st.tasks[t].pc.send].ready
    ensures var b, b', pc := st.book, Apply(st, OpenPoll(t)).book, st.tasks[t].pc;
      var e := b.sends[pc.send];
      && b' == b.(meta := b'.meta)
      && (tid in b.meta && tid !in b'.meta <==>
            && (st.tasks[t].Key() in st.closed || pc.deadline <= st.now)
            && pc.created && tid == e.tid && tid in b.meta && b.meta[tid] == pc.send && e.preq.None? && e.sending == 0)
      && (forall k :: k in b'.meta ==> k in b.meta && b'.meta[k] == b.meta[k])
  {
    hide BookRefs, TaskRefs;
  }
}
