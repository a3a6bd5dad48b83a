/** The producer half of the compression session helper
    (kvsfuse-vllm0.30.0/mooncake/session_process.py) as a transition system.

    Every stretch of code between two `await`s is one action.  Objects that the
    helper shares by reference (`_SendState`, `_ProducerSession`, asyncio tasks)
    live in heaps keyed by an allocation number; a session is keyed by the
    number of the open task that created it.  Names (transfer ids, request ids,
    nonces, socket identities) are natural numbers, clock readings are reals. */
module SessionModel {
  import opened Wrappers

  type Name = nat
  type Ref = nat

  const ABORT_TIMEOUT := 480.0
  const PENDING_REQ_EXPIRY := ABORT_TIMEOUT + 60.0

  /** Key of `_closed` and `_operations`. */
  datatype OpKey = OpKey(tid: Name, dreq: Name, nonce: Name)

  /** Key of `_producer_sessions`. */
  datatype SessionKey = SessionKey(identity: Name, tid: Name, dreq: Name)

  datatype Phase = Active | Cancelled | Failed | Complete

  datatype SendState = SendState(
    tid: Name, preq: Option<Name>, ready: bool, expire: Option<real>,
    needSend: nat, sent: nat, sending: int)

  /** `pulled` and `done` are history: the chunk ids whose pull was counted and
      the chunk ids whose encode job succeeded. */
  datatype Session = Session(
    skey: SessionKey, nonce: Name, send: Ref, total: nat,
    completed: nat, inflight: int, phase: Phase, pulled: set<nat>, done: set<nat>)
  {
    function Key(): OpKey { OpKey(skey.tid, skey.dreq, nonce) }
    predicate Over() { phase == Cancelled || phase == Failed }
  }

  /** Program counter of one request handler. */
  datatype Handler =
    | OpenNew(ranks: nat)
    | OpenPolling(ranks: nat, send: Ref, created: bool, deadline: real)
    | OpenJob(send: Ref)
    | PullNew(chunk: nat)
    | PullWaiting(chunk: nat, session: Ref)
    | PullEncoding(chunk: nat, session: Ref, slot: nat)
    | PullDraining(chunk: nat, session: Ref, slot: nat)
    | AbortNew
    | AbortDraining(pending: set<Ref>, target: Option<Ref>, deadline: real)
    | AbortAcked(clean: bool)
    | Responding

  datatype Task = Task(skey: SessionKey, nonce: Name, pc: Handler)
  {
    function Key(): OpKey { OpKey(skey.tid, skey.dreq, nonce) }

    predicate IsAbort() { pc.AbortNew? || pc.AbortDraining? || pc.AbortAcked? }

    predicate IsOpening() { pc.OpenNew? || pc.OpenPolling? || pc.OpenJob? }

    /** An open or encode job of this handler is with the engine. */
    predicate HasJob() { pc.OpenJob? || pc.PullEncoding? }

    predicate CountedOn(o: Ref) {
      (pc.PullWaiting? || pc.PullEncoding? || pc.PullDraining?) && pc.session == o
    }

    predicate HoldsSlot() { pc.PullEncoding? || pc.PullDraining? }
  }

  datatype EventKind = Sending | SendingExpired

  datatype FinalEvent = FinalEvent(kind: EventKind, tid: Name, preq: Option<Name>)

  /** The objects and indexes that decide when blocks are freed.
      `finishes`, `announced` and `dropped` are history: one entry per
      `_finish_send_meta` call made for a registered session, and the transfer
      ids the engine has announced and dropped. */
  datatype Book = Book(
    meta: map<Name, Ref>,
    sends: map<Ref, SendState>,
    producers: map<SessionKey, Ref>,
    sessions: map<Ref, Session>,
    events: seq<FinalEvent>,
    finishes: multiset<Ref>,
    announced: set<Name>,
    dropped: set<Name>)

  datatype State = State(
    now: real,
    closed: map<OpKey, real>,
    operations: map<OpKey, set<Ref>>,
    tasks: map<Ref, Task>,
    slots: seq<nat>,
    next: Ref,
    book: Book)

  datatype Request = OpenRequest(ranks: nat) | PullRequest(chunk: nat) | AbortRequest

  datatype Action =
    | Tick(delta: real)
    | Announce(tid: Name, preq: Name)
    | Publish(tid: Name, preq: Name)
    | Drop(tid: Name)
    | Dispatch(skey: SessionKey, nonce: Name, request: Request)
    | OpenStart(t: Ref)
    | OpenPoll(t: Ref)
    | OpenDone(t: Ref, ok: bool, total: nat)
    | PullStart(t: Ref)
    | PullSlot(t: Ref)
    | EncodeDone(t: Ref, ok: bool)
    | DrainDone(t: Ref)
    | AbortStart(t: Ref, target: Option<Ref>)
    | AbortDrained(t: Ref, order: seq<Ref>)
    | AbortTimedOut(t: Ref, order: seq<Ref>)
    | Respond(t: Ref)
    | Sweep(tid: Name)

  function Init(slotCount: nat): State {
    State(0.0, map[], map[], map[], seq(slotCount, i => i), 0, Book(map[], map[], map[], map[], [], multiset{}, {}, {}))
  }

  // ----- References -----

  predicate Live(b: Book, o: Ref) {
    o in b.sessions && b.sessions[o].skey in b.producers && b.producers[b.sessions[o].skey] == o
  }

  /** No dangling reference in the book, and every index entry names its own object. */
  ghost predicate BookRefs(b: Book, next: Ref) {
    && (forall tid :: tid in b.meta ==> b.meta[tid] in b.sends && b.sends[b.meta[tid]].tid == tid)
    && (forall k :: k in b.producers ==> b.producers[k] in b.sessions && b.sessions[b.producers[k]].skey == k)
    && (forall o :: o in b.sessions ==>
          && o < next && b.sessions[o].send in b.sends
          && b.sends[b.sessions[o].send].tid == b.sessions[o].skey.tid)
    && (forall s :: s in b.sends ==> s < next)
  }

  predicate TaskRefs(b: Book, task: Task) {
    match task.pc
    case OpenPolling(_, send, _, _) => send in b.sends && b.sends[send].tid == task.skey.tid
    case OpenJob(send) => send in b.sends && b.sends[send].tid == task.skey.tid
    case PullWaiting(_, o) => o in b.sessions && b.sessions[o].skey == task.skey
    case PullEncoding(_, o, _) => o in b.sessions && b.sessions[o].skey == task.skey
    case PullDraining(_, o, _) => o in b.sessions && b.sessions[o].skey == task.skey
    case AbortDraining(_, target, _) => target.Some? ==> target.value in b.sessions
    case _ => true
  }

  ghost predicate Refs(st: State) {
    && BookRefs(st.book, st.next)
    && (forall t :: t in st.tasks ==> t < st.next && TaskRefs(st.book, st.tasks[t]))
    && (forall t :: t in st.tasks && st.tasks[t].IsOpening() ==> t !in st.book.sessions)
  }

  // ----- Bookkeeping -----

  predicate HasSession(b: Book, o: Ref) {
    o in b.sessions && b.sessions[o].send in b.sends
  }

  function PutSend(b: Book, s: Ref, e: SendState): Book {
    b.(sends := b.sends[s := e])
  }

  function PutSession(b: Book, o: Ref, x: Session): Book {
    b.(sessions := b.sessions[o := x])
  }

  function SetPhase(b: Book, o: Ref, phase: Phase): Book
    requires o in b.sessions
  {
    PutSession(b, o, b.sessions[o].(phase := phase))
  }

  function Forget(b: Book, key: SessionKey): Book {
    b.(producers := b.producers - {key})
  }

  /** `_finish_send_meta` */
  function FinishSend(b: Book, s: Ref): (r: Book)
    requires s in b.sends
    ensures b.events <= r.events
  {
    var e := b.sends[s].(sending := b.sends[s].sending - 1, sent := b.sends[s].sent + 1);
    var b' := PutSend(b, s, e);
    if e.sent == e.needSend && e.tid in b.meta then
      b'.(meta := b.meta - {e.tid}, events := b.events + [FinalEvent(Sending, e.tid, e.preq)])
    else b'
  }

  function FinishSession(b: Book, o: Ref): (r: Book)
    requires HasSession(b, o)
    ensures b.events <= r.events
  {
    FinishSend(b.(finishes := b.finishes + multiset{o}), b.sessions[o].send)
  }

  /** `_discard_producer_session`: the key is popped even when it names another session. */
  function Discard(b: Book, o: Ref): (r: Book)
    requires HasSession(b, o)
    ensures b.events <= r.events
  {
    var x := b.sessions[o];
    var b' := Forget(b, x.skey);
    if !Live(b, o) then b'
    else if x.Over() then FinishSession(b', o)
    else PutSend(b', x.send, b.sends[x.send].(sending := b.sends[x.send].sending - 1))
  }

  /** `_complete_producer_session`; `Closes` says whether it also closes the operation key. */
  function CompleteSession(b: Book, o: Ref): (r: Book)
    requires HasSession(b, o)
    ensures b.events <= r.events
  {
    var b' := Forget(b, b.sessions[o].skey);
    if !Live(b, o) then b' else FinishSession(SetPhase(b', o, Complete), o)
  }

  function CloseCompleted(closed: map<OpKey, real>, now: real, b: Book, o: Ref): map<OpKey, real>
    requires o in b.sessions
  {
    if Live(b, o) then closed[b.sessions[o].Key() := now + PENDING_REQ_EXPIRY] else closed
  }

  /** Discard a cancelled or failed session once no chunk is in flight. */
  function Settle(b: Book, o: Ref): (r: Book)
    requires HasSession(b, o)
    ensures b.events <= r.events
  {
    if b.sessions[o].inflight == 0 && b.sessions[o].Over() then Discard(b, o) else b
  }

  function CancelSession(b: Book, o: Ref): (r: Book)
    requires HasSession(b, o)
    ensures b.events <= r.events
  {
    Settle(SetPhase(b, o, Cancelled), o)
  }

  ghost predicate HasSessions(b: Book, order: seq<Ref>) {
    forall i :: 0 <= i < |order| ==> HasSession(b, order[i])
  }

  /** The closing loop of `_abort_producer`. */
  function CancelAll(b: Book, order: seq<Ref>): (r: Book)
    requires HasSessions(b, order)
    ensures b.events <= r.events
    decreases |order|
  {
    if order == [] then b
    else
      var b' := CancelSession(b, order[0]);
      assert forall i :: 0 <= i < |order[1..]| ==> HasSession(b, order[1..][i]) by {
        forall i | 0 <= i < |order[1..]| ensures HasSession(b, order[1..][i]) { assert order[1..][i] == order[i + 1]; }
      }
      CancelAll(b', order[1..])
  }

  function NewSend(tid: Name, preq: Option<Name>): SendState {
    SendState(tid, preq, false, None, 0, 0, 0)
  }

  // ----- Actions -----

  function SetPc(st: State, t: Ref, pc: Handler): State
    requires t in st.tasks
  {
    st.(tasks := st.tasks[t := st.tasks[t].(pc := pc)])
  }

  ghost predicate ValidTarget(b: Book, task: Task, target: Option<Ref>) {
    if task.skey in b.producers then target == Some(b.producers[task.skey])
    else if target.Some? then Live(b, target.value) && b.sessions[target.value].Key() == task.Key()
    else forall o :: Live(b, o) ==> b.sessions[o].Key() != task.Key()
  }

  ghost predicate ValidOrder(b: Book, key: OpKey, order: seq<Ref>) {
    && (forall i, j :: 0 <= i < j < |order| ==> order[i] != order[j])
    && (forall i :: 0 <= i < |order| ==> Live(b, order[i]) && b.sessions[order[i]].Key() == key)
    && (forall o :: Live(b, o) && b.sessions[o].Key() == key ==> o in order)
  }

  /** What `drain()` has waited for. */
  ghost predicate Drained(st: State, task: Task)
    requires task.pc.AbortDraining? && TaskRefs(st.book, task)
  {
    && task.pc.pending !! st.tasks.Keys
    && (task.pc.target.Some? && st.book.sessions[task.pc.target.value].nonce == task.nonce ==>
          st.book.sessions[task.pc.target.value].inflight == 0)
  }

  /** When the event loop can take an action. */
  ghost predicate Enabled(st: State, a: Action)
    requires Refs(st)
  {
    match a
    case Tick(delta) => delta >= 0.0
    case Announce(_, _) => true
    case Publish(_, _) => true
    case Drop(_) => true
    case Dispatch(_, _, request) => request.OpenRequest? ==> request.ranks > 0
    case OpenStart(t) => t in st.tasks && st.tasks[t].pc.OpenNew?
    case OpenPoll(t) => t in st.tasks && st.tasks[t].pc.OpenPolling?
    case OpenDone(t, _, _) => t in st.tasks && st.tasks[t].pc.OpenJob?
    case PullStart(t) => t in st.tasks && st.tasks[t].pc.PullNew?
    case PullSlot(t) => t in st.tasks && st.tasks[t].pc.PullWaiting? && st.slots != []
    case EncodeDone(t, _) => t in st.tasks && st.tasks[t].pc.PullEncoding?
    case DrainDone(t) => t in st.tasks && st.tasks[t].pc.PullDraining?
    case AbortStart(t, target) => t in st.tasks && st.tasks[t].pc.AbortNew? && ValidTarget(st.book, st.tasks[t], target)
    case AbortDrained(t, order) =>
      && t in st.tasks && st.tasks[t].pc.AbortDraining? && Drained(st, st.tasks[t])
      && ValidOrder(st.book, st.tasks[t].Key(), order)
    case AbortTimedOut(t, order) =>
      t in st.tasks && st.tasks[t].pc.AbortDraining? && ValidOrder(st.book, st.tasks[t].Key(), order)
    case Respond(t) => t in st.tasks && (st.tasks[t].pc.Responding? || st.tasks[t].pc.AbortAcked?)
    case Sweep(tid) =>
      && tid in st.book.meta
      && var e := st.book.sends[st.book.meta[tid]];
         e.preq.Some? && e.expire.Some? && e.expire.value < st.now && e.sending == 0
  }

  function ApplyAnnounce(st: State, tid: Name, preq: Name): State
    requires tid in st.book.meta ==> st.book.meta[tid] in st.book.sends
  {
    var b := st.book;
    var old' := tid in b.meta;
    var s := if old' then b.meta[tid] else st.next;
    var e := if old' then b.sends[s] else NewSend(tid, None);
    st.(next := if old' then st.next else st.next + 1,
        book := PutSend(b.(meta := b.meta[tid := s], announced := b.announced + {tid}), s,
                        e.(preq := Some(preq), ready := true, expire := Some(st.now + ABORT_TIMEOUT))))
  }

  function ApplyPublish(st: State, tid: Name, preq: Name): State
    requires tid in st.book.meta ==> st.book.meta[tid] in st.book.sends
  {
    var b := st.book;
    if tid !in b.meta then
      st.(next := st.next + 1,
          book := PutSend(b.(meta := b.meta[tid := st.next]), st.next, NewSend(tid, Some(preq))))
    else if b.sends[b.meta[tid]].preq.None? then
      st.(book := PutSend(b, b.meta[tid], b.sends[b.meta[tid]].(preq := Some(preq))))
    else st
  }

  function ApplyDrop(st: State, tid: Name): State {
    st.(book := st.book.(meta := st.book.meta - {tid}, dropped := st.book.dropped + {tid}))
  }

  function Purged(closed: map<OpKey, real>, now: real): map<OpKey, real> {
    map k | k in closed && closed[k] > now :: closed[k]
  }

  function NewTask(skey: SessionKey, nonce: Name, request: Request): Task {
    Task(skey, nonce, match request
      case OpenRequest(ranks) => OpenNew(ranks)
      case PullRequest(chunk) => PullNew(chunk)
      case AbortRequest => AbortNew)
  }

  function Indexed(operations: map<OpKey, set<Ref>>, key: OpKey): set<Ref> {
    if key in operations then operations[key] else {}
  }

  /** `_dispatch_producer`: purge expired keys, start the handler, index it unless it is an abort. */
  function ApplyDispatch(st: State, skey: SessionKey, nonce: Name, request: Request): State {
    var task := NewTask(skey, nonce, request);
    var key := task.Key();
    st.(closed := Purged(st.closed, st.now), next := st.next + 1, tasks := st.tasks[st.next := task],
        operations :=
          if request.AbortRequest? then st.operations
          else st.operations[key := Indexed(st.operations, key) + {st.next}])
  }

  /** Find or create the send state. */
  function BeginOpen(st: State, t: Ref): State
    requires t in st.tasks && st.tasks[t].pc.OpenNew?
  {
    var tid := st.tasks[t].skey.tid;
    var ranks := st.tasks[t].pc.ranks;
    var deadline := st.now + ABORT_TIMEOUT;
    if tid in st.book.meta then
      SetPc(st, t, OpenPolling(ranks, st.book.meta[tid], false, deadline))
    else
      SetPc(st, t, OpenPolling(ranks, st.next, true, deadline)).(
        next := st.next + 1,
        book := PutSend(st.book.(meta := st.book.meta[tid := st.next]), st.next, NewSend(tid, None)))
  }

  /** The `except` branch of `_open_producer_session` before a claim. */
  function AbandonOpen(b: Book, s: Ref, created: bool): Book
    requires s in b.sends
  {
    var e := b.sends[s];
    if created && e.tid in b.meta && b.meta[e.tid] == s && !e.ready && e.preq.None? && e.sending == 0
    then b.(meta := b.meta - {e.tid}) else b
  }

  /** `sending += 1` and the first claim's `need_send`. */
  function Claim(e: SendState, ranks: nat): SendState {
    e.(sending := e.sending + 1, needSend := if e.needSend == 0 then ranks else e.needSend)
  }

  function ApplyOpenPoll(st: State, t: Ref): State
    requires t in st.tasks && st.tasks[t].pc.OpenPolling? && st.tasks[t].pc.send in st.book.sends
  {
    var task := st.tasks[t];
    var OpenPolling(ranks, s, created, deadline) := task.pc;
    var e := st.book.sends[s];
    if e.ready then
      var b := PutSend(st.book, s, Claim(e, ranks));
      if task.Key() in st.closed then SetPc(st, t, Responding).(book := FinishSend(b, s))
      else SetPc(st, t, OpenJob(s)).(book := b)
    else if task.Key() in st.closed || deadline <= st.now then
      SetPc(st, t, Responding).(book := AbandonOpen(st.book, s, created))
    else st
  }

  /** `_open_producer_session` up to its first wait: the first turn of `_wait_ready` runs
      at once, so an open that finds its transfer ready claims it in this action. */
  function ApplyOpenStart(st: State, t: Ref): State
    requires t in st.tasks && st.tasks[t].pc.OpenNew?
    requires st.tasks[t].skey.tid in st.book.meta ==> st.book.meta[st.tasks[t].skey.tid] in st.book.sends
  {
    ApplyOpenPoll(BeginOpen(st, t), t)
  }

  function Register(b: Book, t: Ref, task: Task, s: Ref, total: nat): Book {
    PutSession(b, t, Session(task.skey, task.nonce, s, total, 0, 0, Active, {}, {})).(
      producers := b.producers[task.skey := t])
  }

  function ApplyOpenDone(st: State, t: Ref, ok: bool, total: nat): State
    requires t in st.tasks && st.tasks[t].pc.OpenJob? && st.tasks[t].pc.send in st.book.sends
  {
    var task := st.tasks[t];
    var s := task.pc.send;
    var st' := SetPc(st, t, Responding);
    if !ok then st'.(book := FinishSend(st.book, s))
    else
      var b := Register(st.book, t, task, s, total);
      if total == 0 then
        st'.(book := CompleteSession(b, t), closed := CloseCompleted(st.closed, st.now, b, t))
      else st'.(book := b)
  }

  function CountPull(x: Session, chunk: nat): Session {
    x.(inflight := x.inflight + 1, pulled := x.pulled + {chunk})
  }

  function ApplyPullStart(st: State, t: Ref): State
    requires t in st.tasks && st.tasks[t].pc.PullNew?
    requires st.tasks[t].skey in st.book.producers ==> HasSession(st.book, st.book.producers[st.tasks[t].skey])
  {
    var task := st.tasks[t];
    var b := st.book;
    if task.skey !in b.producers then SetPc(st, t, Responding)
    else
      var o := b.producers[task.skey];
      var x := b.sessions[o];
      if x.phase != Active then
        SetPc(st, t, Responding).(book := Settle(SetPhase(b, o, Failed), o))
      else
        SetPc(st, t, PullWaiting(task.pc.chunk, o)).(book := PutSession(b, o, CountPull(x, task.pc.chunk)))
  }

  function ApplyPullSlot(st: State, t: Ref): State
    requires t in st.tasks && st.tasks[t].pc.PullWaiting? && st.tasks[t].pc.session in st.book.sessions && st.slots != []
  {
    var task := st.tasks[t];
    var PullWaiting(chunk, o) := task.pc;
    if st.book.sessions[o].phase != Active || task.Key() in st.closed then
      SetPc(st, t, PullDraining(chunk, o, st.slots[0])).(slots := st.slots[1..], book := SetPhase(st.book, o, Failed))
    else
      SetPc(st, t, PullEncoding(chunk, o, st.slots[0])).(slots := st.slots[1..])
  }

  /** The `finally` block of `_serve_producer_chunk` once the slot is idle. */
  function Uncount(b: Book, o: Ref): (r: Book)
    requires HasSession(b, o)
    ensures b.events <= r.events
  {
    Settle(PutSession(b, o, b.sessions[o].(inflight := b.sessions[o].inflight - 1)), o)
  }

  function CountDone(x: Session, chunk: nat): Session {
    x.(completed := x.completed + 1, done := x.done + {chunk})
  }

  predicate Completes(x: Session) {
    x.phase == Active && x.completed == x.total
  }

  function ApplyEncodeDone(st: State, t: Ref, ok: bool): State
    requires t in st.tasks && st.tasks[t].pc.PullEncoding? && HasSession(st.book, st.tasks[t].pc.session)
  {
    var PullEncoding(chunk, o, slot) := st.tasks[t].pc;
    if !ok then SetPc(st, t, PullDraining(chunk, o, slot)).(book := SetPhase(st.book, o, Failed))
    else
      var x := CountDone(st.book.sessions[o], chunk);
      var b := PutSession(st.book, o, x);
      var st' := SetPc(st, t, Responding).(slots := st.slots + [slot]);
      if Completes(x) then
        st'.(book := Uncount(CompleteSession(b, o), o), closed := CloseCompleted(st.closed, st.now, b, o))
      else st'.(book := Uncount(b, o))
  }

  function ApplyDrainDone(st: State, t: Ref): State
    requires t in st.tasks && st.tasks[t].pc.PullDraining? && HasSession(st.book, st.tasks[t].pc.session)
  {
    var PullDraining(_, o, slot) := st.tasks[t].pc;
    SetPc(st, t, Responding).(slots := st.slots + [slot], book := Uncount(st.book, o))
  }

  function ApplyAbortStart(st: State, t: Ref, target: Option<Ref>): State
    requires t in st.tasks && (target.Some? ==> HasSession(st.book, target.value))
  {
    var task := st.tasks[t];
    SetPc(st, t, AbortDraining(Indexed(st.operations, task.Key()), target, st.now + ABORT_TIMEOUT)).(
      closed := st.closed[task.Key() := st.now + PENDING_REQ_EXPIRY],
      book :=
        if target.Some? && st.book.sessions[target.value].nonce == task.nonce
        then CancelSession(st.book, target.value) else st.book)
  }

  function ApplyAbortEnd(st: State, t: Ref, order: seq<Ref>, clean: bool): State
    requires t in st.tasks && HasSessions(st.book, order)
  {
    SetPc(st, t, AbortAcked(clean)).(book := CancelAll(st.book, order))
  }

  /** The task's done callback. */
  function ApplyRespond(st: State, t: Ref): State
    requires t in st.tasks
  {
    var key := st.tasks[t].Key();
    var rest := Indexed(st.operations, key) - {t};
    st.(tasks := st.tasks - {t},
        operations :=
          if st.tasks[t].IsAbort() || key !in st.operations then st.operations
          else if rest == {} then st.operations - {key}
          else st.operations[key := rest])
  }

  function ApplySweep(st: State, tid: Name): State
    requires tid in st.book.meta && st.book.meta[tid] in st.book.sends
  {
    var b := st.book;
    st.(book := b.(meta := b.meta - {tid},
                   events := b.events + [FinalEvent(SendingExpired, tid, b.sends[b.meta[tid]].preq)]))
  }

  ghost function Apply(st: State, a: Action): State
    requires Refs(st) && Enabled(st, a)
  {
    match a
    case Tick(delta) => st.(now := st.now + delta)
    case Announce(tid, preq) => ApplyAnnounce(st, tid, preq)
    case Publish(tid, preq) => ApplyPublish(st, tid, preq)
    case Drop(tid) => ApplyDrop(st, tid)
    case Dispatch(skey, nonce, request) => ApplyDispatch(st, skey, nonce, request)
    case OpenStart(t) => ApplyOpenStart(st, t)
    case OpenPoll(t) => ApplyOpenPoll(st, t)
    case OpenDone(t, ok, total) => ApplyOpenDone(st, t, ok, total)
    case PullStart(t) => ApplyPullStart(st, t)
    case PullSlot(t) => ApplyPullSlot(st, t)
    case EncodeDone(t, ok) => ApplyEncodeDone(st, t, ok)
    case DrainDone(t) => ApplyDrainDone(st, t)
    case AbortStart(t, target) => ApplyAbortStart(st, t, target)
    case AbortDrained(t, order) => ApplyAbortEnd(st, t, order, true)
    case AbortTimedOut(t, order) => ApplyAbortEnd(st, t, order, false)
    case Respond(t) => ApplyRespond(st, t)
    case Sweep(tid) => ApplySweep(st, tid)
  }
}
