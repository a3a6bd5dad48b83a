/** Claims on send states over whole runs: every open that finds its transfer ready adds
    one claim, and every claim ends as a finished send. */
module SessionClaims {
  import opened Wrappers
  import opened SessionModel
  import opened SessionAbort
  import opened SessionEvents

  /** The action is an open that finds the ready send state s. */
  ghost predicate ClaimsOn(st: State, a: Action, s: Ref) {
    && (a.OpenStart? || a.OpenPoll?) && a.t in st.tasks && s in st.book.sends && st.book.sends[s].ready
    && var task := st.tasks[a.t];
       if a.OpenStart? then task.pc.OpenNew? && task.skey.tid in st.book.meta && st.book.meta[task.skey.tid] == s
       else task.pc.OpenPolling? && task.pc.send == s
  }

  /** How often s was claimed before state j. */
  ghost function ClaimCount(states: seq<State>, acts: seq<Action>, s: Ref, j: nat): nat
    requires j <= |acts| < |states|
  {
    if j == 0 then 0 else ClaimCount(states, acts, s, j - 1) + (if ClaimsOn(states[j - 1], acts[j - 1], s) then 1 else 0)
  }

  /** How many ranks the first claim on s asked for, or zero. */
  ghost function FirstRanks(states: seq<State>, acts: seq<Action>, s: Ref, j: nat): nat
    requires j <= |acts| < |states|
  {
    if j == 0 then 0
    else
      var n := FirstRanks(states, acts, s, j - 1);
      if n == 0 && ClaimsOn(states[j - 1], acts[j - 1], s) then states[j - 1].tasks[acts[j - 1].t].pc.ranks else n
  }

  ghost function Tally(b: Book, s: Ref): int { if s in b.sends then b.sends[s].sent + b.sends[s].sending else 0 }

  ghost function Need(b: Book, s: Ref): nat { if s in b.sends then b.sends[s].needSend else 0 }

  ghost predicate SameTally(b: Book, b': Book, s: Ref) { Tally(b', s) == Tally(b, s) && Need(b', s) == Need(b, s) }

  /** One claim with this many ranks is added. */
  ghost predicate MoreTally(b: Book, b': Book, s: Ref, ranks: nat) {
    Tally(b', s) == Tally(b, s) + 1 && Need(b', s) == if Need(b, s) == 0 then ranks else Need(b, s)
  }

  /** One send state is written; its counters are those of the one before, or zero. */
  lemma PutTally(b: Book, b': Book, r: Ref, e: SendState, s: Ref)
    requires b'.sends == b.sends[r := e] && e.sent + e.sending == Tally(b, r) && e.needSend == Need(b, r)
    ensures SameTally(b, b', s)
  {
  }

  lemma AnnounceTally(st: State, tid: Name, preq: Name, s: Ref)
    requires tid in st.book.meta ==> st.book.meta[tid] in st.book.sends
    requires st.next !in st.book.sends
    ensures SameTally(st.book, ApplyAnnounce(st, tid, preq).book, s)
  {
    hide SameTally;
    var b, b' := st.book, ApplyAnnounce(st, tid, preq).book;
    var r := if tid in b.meta then b.meta[tid] else st.next;
    PutTally(b, b', r, b'.sends[r], s);
  }

  lemma PublishTally(st: State, tid: Name, preq: Name, s: Ref)
    requires tid in st.book.meta ==> st.book.meta[tid] in st.book.sends
    requires st.next !in st.book.sends
    ensures SameTally(st.book, ApplyPublish(st, tid, preq).book, s)
  {
    var b := st.book;
    if tid !in b.meta {
      hide SameTally;
      PutTally(b, ApplyPublish(st, tid, preq).book, st.next, NewSend(tid, Some(preq)), s);
    } else if b.sends[b.meta[tid]].preq.None? {
      hide SameTally;
      PutTally(b, ApplyPublish(st, tid, preq).book, b.meta[tid], b.sends[b.meta[tid]].(preq := Some(preq)), s);
    }
  }

  lemma EngineTally(st: State, a: Action, s: Ref)
    requires Refs(st) && Enabled(st, a) && (a.Announce? || a.Publish? || a.Drop? || a.Sweep?)
    ensures SameTally(st.book, Apply(st, a).book, s)
  {
    hide TaskRefs, BookRefs, ApplyAnnounce, ApplyPublish;
    IndexEntry(st.book, st.next, a.tid);
    match a
    case Announce(tid, preq) => AnnounceTally(st, tid, preq, s);
    case Publish(tid, preq) => PublishTally(st, tid, preq, s);
    case Drop(_) =>
    case Sweep(_) =>
  }

  lemma ClaimTally(b: Book, r: Ref, ranks: nat, s: Ref)
    requires r in b.sends
    ensures var b1 := PutSend(b, r, Claim(b.sends[r], ranks));
      if s == r then MoreTally(b, b1, s, ranks) && MoreTally(b, FinishSend(b1, r), s, ranks)
      else SameTally(b, b1, s) && SameTally(b, FinishSend(b1, r), s)
  {
  }

  lemma AbandonTally(b: Book, r: Ref, created: bool, s: Ref)
    requires r in b.sends
    ensures SameTally(b, AbandonOpen(b, r, created), s)
  {
  }

  lemma PollTally(st: State, t: Ref, s: Ref)
    requires t in st.tasks && st.tasks[t].pc.OpenPolling? && st.tasks[t].pc.send in st.book.sends
    ensures var b, b' := st.book, ApplyOpenPoll(st, t).book;
      if ClaimsOn(st, OpenPoll(t), s) then MoreTally(b, b', s, st.tasks[t].pc.ranks) else SameTally(b, b', s)
  {
    hide Tally, Need, FinishSend, AbandonOpen, Claim;
    var r := st.tasks[t].pc.send;
    ClaimTally(st.book, r, st.tasks[t].pc.ranks, s);
    AbandonTally(st.book, r, st.tasks[t].pc.created, s);
  }

  lemma BeginTally(st: State, t: Ref, s: Ref)
    requires Refs(st) && Enabled(st, OpenStart(t))
    ensures SameTally(st.book, BeginOpen(st, t).book, s)
    ensures ClaimsOn(BeginOpen(st, t), OpenPoll(t), s) <==> ClaimsOn(st, OpenStart(t), s)
    ensures t in BeginOpen(st, t).tasks && BeginOpen(st, t).tasks[t].pc.OpenPolling?
    ensures BeginOpen(st, t).tasks[t].pc.ranks == st.tasks[t].pc.ranks && BeginOpen(st, t).tasks[t].pc.send in BeginOpen(st, t).book.sends
  {
    hide TaskRefs;
  }

  lemma StartTally(st: State, t: Ref, s: Ref)
    requires Refs(st) && Enabled(st, OpenStart(t))
    ensures var b, b' := st.book, ApplyOpenStart(st, t).book;
      if ClaimsOn(st, OpenStart(t), s) then MoreTally(b, b', s, st.tasks[t].pc.ranks) else SameTally(b, b', s)
  {
    BeginTally(st, t, s);
    hide Refs, ApplyOpenPoll, BeginOpen, ClaimsOn;
    PollTally(BeginOpen(st, t), t, s);
  }

  lemma SessionTally(st: State, a: Action, s: Ref)
    requires Refs(st) && Enabled(st, a) && ClaimsReady(st)
    requires !a.Announce? && !a.Publish? && !a.Drop? && !a.Sweep? && !a.OpenStart? && !a.OpenPoll?
    ensures SameTally(st.book, Apply(st, a).book, s)
  {
    hide Finishing, SessionsReady, Refs;
    if s in st.book.sends {
      SessionCounters(st, a, s);
    } else if a.OpenDone? {
      DoneKeys(st, a.t, a.ok, a.total);
    } else {
      SessionStep(st, a);
      FinishingKeys(st.book, Apply(st, a).book);
    }
  }

  lemma FinishingKeys(b: Book, b': Book)
    requires Finishing(b, b')
    ensures b'.sends.Keys == b.sends.Keys && b'.meta.Keys <= b.meta.Keys
  {
  }

  lemma DoneKeys(st: State, t: Ref, ok: bool, total: nat)
    requires Refs(st) && Enabled(st, OpenDone(t, ok, total)) && ClaimsReady(st)
    ensures var b, b' := st.book, ApplyOpenDone(st, t, ok, total).book; b'.sends.Keys == b.sends.Keys && b'.meta.Keys <= b.meta.Keys
  {
    hide Finishing, TaskRefs, FinishSend, CompleteSession;
    var b, task := st.book, st.tasks[t];
    var b1 := Register(b, t, task, task.pc.send, total);
    assert SessionsReady(b1);
    hide Refs, SessionsReady;
    FinishFinishing(b, task.pc.send);
    FinishingKeys(b, FinishSend(b, task.pc.send));
    CompleteFinishing(b1, t);
    FinishingKeys(b1, CompleteSession(b1, t));
  }

  lemma TallyStep(st: State, a: Action, s: Ref)
    requires Refs(st) && Enabled(st, a) && ClaimsReady(st)
    ensures var b, b' := st.book, Apply(st, a).book;
      if ClaimsOn(st, a, s) then MoreTally(b, b', s, st.tasks[a.t].pc.ranks) else SameTally(b, b', s)
  {
    hide Tally, Need, Refs, ClaimsReady;
    if a.OpenStart? {
      StartTally(st, a.t, s);
    } else if a.OpenPoll? {
      SendOfPoll(st, a.t);
      PollTally(st, a.t, s);
    } else if a.Announce? || a.Publish? || a.Drop? || a.Sweep? {
      EngineTally(st, a, s);
    } else {
      SessionTally(st, a, s);
    }
  }

  lemma SendOfPoll(st: State, t: Ref)
    requires Refs(st) && Enabled(st, OpenPoll(t))
    ensures st.tasks[t].pc.send in st.book.sends
  {
    assert TaskRefs(st.book, st.tasks[t]);
  }

  /** Conservation of claims, in every run: the claims ever made on a send state are those
      still held plus the sends finished, and it needs as many sends as its first claim
      said.  A failed open, a refused one, a cancelled, failed or complete session all
      count as sent. */
  lemma {:induction false} ClaimsConserved(states: seq<State>, acts: seq<Action>, slotCount: nat, j: nat, s: Ref)
    requires IsRun(states, acts, slotCount) && j < |states|
    ensures s in states[j].book.sends ==>
      var e := states[j].book.sends[s];
      e.sent + e.sending == ClaimCount(states, acts, s, j) && e.needSend == FirstRanks(states, acts, s, j)
    ensures s !in states[j].book.sends ==> ClaimCount(states, acts, s, j) == 0 && FirstRanks(states, acts, s, j) == 0
  {
    hide Refs, Enabled, Apply, ClaimsReady, ClaimsOn, Told;
    if j > 0 {
      ClaimsConserved(states, acts, slotCount, j - 1, s);
      RunTold(states, acts, slotCount, j - 1);
      TallyStep(states[j - 1], acts[j - 1], s);
      assert ClaimsOn(states[j - 1], acts[j - 1], s) ==> s in states[j].book.sends by { ClaimStays(states, acts, slotCount, j - 1, s); }
    } else {
      NothingSent(slotCount, s);
    }
  }

  lemma NothingSent(slotCount: nat, s: Ref)
    ensures s !in Init(slotCount).book.sends
  {
  }

  lemma ClaimStays(states: seq<State>, acts: seq<Action>, slotCount: nat, i: nat, s: Ref)
    requires IsRun(states, acts, slotCount) && i < |acts| && ClaimsReady(states[i])
    ensures ClaimsOn(states[i], acts[i], s) ==> s in states[i + 1].book.sends
  {
    hide Refs, Enabled, Apply, ClaimsReady;
    if ClaimsOn(states[i], acts[i], s) { ReadyStep(states[i], acts[i]); }
  }
}
