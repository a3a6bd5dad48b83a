/** Two concrete runs of the helper.  One frees a transfer with every promise kept; the
    other shows why freeing needs a timely wake-up: an open that polls for its
    announcement can be overtaken by the expiry of that same announcement. */
module SessionRuns {
  import opened Wrappers
  import opened SessionModel
  import opened SessionAbort
  import opened SessionFreeing

  const TID: Name := 7
  const SKEY := SessionKey(1, TID, 100)

  ghost predicate Polling(st: State) {
    && 0 in st.tasks && st.tasks[0] == Task(SKEY, 3, OpenPolling(1, 1, true, 480.0))
    && st.closed == map[] && st.next == 2 && st.slots == [0]
    && st.book.meta == map[TID := 1] && st.book.events == [] && st.book.producers == map[] && st.book.sessions == map[]
  }

  ghost predicate Waiting(st: State) {
    && Polling(st) && st.now == 0.0 && st.book.announced == {} && st.book.dropped == {}
    && st.book.sends == map[1 := NewSend(TID, None)]
  }

  ghost predicate Announced(st: State, now: real) {
    Polling(st) && st.now == now && st.book.sends == map[1 := SendState(TID, Some(5), true, Some(480.0), 0, 0, 0)]
  }

  /** After the sweep: freed, while the open has not run. */
  ghost predicate Swept(st: State) {
    && 0 in st.tasks && st.tasks[0] == Task(SKEY, 3, OpenPolling(1, 1, true, 480.0)) && st.closed == map[]
    && Freed(st.book, TID) && 1 in st.book.sends && st.book.sends[1].ready && st.book.sends[1].needSend == 0
  }

  /** The steps of an honest run, but for the sweep's promise. */
  ghost predicate Step(st: State, a: Action, st': State, honest: bool) {
    Base(st, 1) && Enabled(st, a) && (honest ==> Honest(st, a)) && st' == Apply(st, a) && Base(st', 1)
  }

  ghost predicate Dispatched(st: State) {
    && st.tasks == map[0 := Task(SKEY, 3, OpenNew(1))] && st.next == 1 && st.closed == map[] && st.now == 0.0
    && st.slots == [0] && st.book == Init(1).book
  }

  lemma Dispatches() returns (st: State)
    ensures Step(Init(1), Dispatch(SKEY, 3, OpenRequest(1)), st, true) && Dispatched(st)
  {
    hide Base, Refs, Enabled, Honest, Apply, Dispatched;
    var a := Dispatch(SKEY, 3, OpenRequest(1));
    InitBase(1);
    BaseRefs(Init(1), 1);
    FirstOpen();
    StepBase(Init(1), a, 1);
    st := Apply(Init(1), a);
  }

  lemma FirstOpen()
    requires Refs(Init(1))
    ensures var a := Dispatch(SKEY, 3, OpenRequest(1));
      Enabled(Init(1), a) && Honest(Init(1), a) && Dispatched(Apply(Init(1), a))
  {
  }

  lemma Opens(st: State) returns (st': State)
    requires Base(st, 1) && Dispatched(st)
    ensures Step(st, OpenStart(0), st', true) && Waiting(st')
  {
    hide Base;
    BaseRefs(st, 1);
    StepBase(st, OpenStart(0), 1);
    hide Refs;
    st' := ApplyOpenStart(st, 0);
    assert Waiting(st');
    assert Step(st, OpenStart(0), st', true);
  }

  lemma Announces(st: State) returns (st': State)
    requires Base(st, 1) && Waiting(st)
    ensures Step(st, Announce(TID, 5), st', true) && Announced(st', 0.0)
  {
    hide Base;
    BaseRefs(st, 1);
    StepBase(st, Announce(TID, 5), 1);
    hide Refs;
    st' := ApplyAnnounce(st, TID, 5);
    assert st'.book.sends == map[1 := SendState(TID, Some(5), true, Some(480.0), 0, 0, 0)];
    assert Step(st, Announce(TID, 5), st', true);
  }

  const READY := SendState(TID, Some(5), true, Some(480.0), 1, 0, 1)

  /** The open has claimed the announced transfer. */
  ghost predicate Claimed(st: State) {
    && 0 in st.tasks && st.tasks[0] == Task(SKEY, 3, OpenJob(1)) && Held(st) && st.next == 2 && st.slots == [0]
    && st.book.producers == map[] && st.book.sessions == map[]
  }

  ghost predicate Held(st: State) {
    st.closed == map[] && st.book.meta == map[TID := 1] && st.book.sends == map[1 := READY] && st.book.events == []
  }

  lemma Claims(st: State) returns (st': State)
    requires Base(st, 1) && Announced(st, 0.0)
    ensures Step(st, OpenPoll(0), st', true) && Claimed(st')
  {
    hide Base;
    BaseRefs(st, 1);
    StepBase(st, OpenPoll(0), 1);
    hide Refs;
    st' := ApplyOpenPoll(st, 0);
    assert st'.book.sends == map[1 := READY];
    assert Step(st, OpenPoll(0), st', true);
  }

  /** A session of one chunk is registered. */
  ghost predicate Registered(st: State, x: Session) {
    Held(st) && st.book.producers == map[SKEY := 0] && st.book.sessions == map[0 := x]
  }

  const OPENED := Session(SKEY, 3, 1, 1, 0, 0, Active, {}, {})
  const PULLED := Session(SKEY, 3, 1, 1, 0, 1, Active, {0}, {})

  lemma Registers(st: State) returns (st': State)
    requires Base(st, 1) && Claimed(st)
    ensures Step(st, OpenDone(0, true, 1), st', true) && Registered(st', OPENED) && st'.next == 2 && st'.slots == [0]
  {
    hide Base;
    BaseRefs(st, 1);
    StepBase(st, OpenDone(0, true, 1), 1);
    hide Refs;
    st' := ApplyOpenDone(st, 0, true, 1);
    assert Step(st, OpenDone(0, true, 1), st', true);
  }

  ghost predicate AtPull(st: State, pc: Handler) {
    2 in st.tasks && st.tasks[2] == Task(SKEY, 3, pc)
  }

  lemma Pulls(st: State) returns (st': State)
    requires Base(st, 1) && Registered(st, OPENED) && st.next == 2 && st.slots == [0]
    ensures Step(st, Dispatch(SKEY, 3, PullRequest(0)), st', true) && Registered(st', OPENED) && AtPull(st', PullNew(0)) && st'.slots == [0]
  {
    hide Base;
    BaseRefs(st, 1);
    var a := Dispatch(SKEY, 3, PullRequest(0));
    StepBase(st, a, 1);
    hide Refs;
    st' := ApplyDispatch(st, SKEY, 3, PullRequest(0));
    assert Step(st, a, st', true);
  }

  lemma Counts(st: State) returns (st': State)
    requires Base(st, 1) && Registered(st, OPENED) && AtPull(st, PullNew(0)) && st.slots == [0]
    ensures Step(st, PullStart(2), st', true) && Registered(st', PULLED) && AtPull(st', PullWaiting(0, 0)) && st'.slots == [0]
  {
    hide Base;
    BaseRefs(st, 1);
    StepBase(st, PullStart(2), 1);
    hide Refs;
    assert CountPull(OPENED, 0) == PULLED;
    st' := ApplyPullStart(st, 2);
    assert st'.book.sessions == map[0 := PULLED];
    assert Step(st, PullStart(2), st', true);
  }

  lemma TakesSlot(st: State) returns (st': State)
    requires Base(st, 1) && Registered(st, PULLED) && AtPull(st, PullWaiting(0, 0)) && st.slots == [0]
    ensures Step(st, PullSlot(2), st', true) && Registered(st', PULLED) && AtPull(st', PullEncoding(0, 0, 0))
  {
    hide Base;
    BaseRefs(st, 1);
    StepBase(st, PullSlot(2), 1);
    hide Refs;
    st' := ApplyPullSlot(st, 2);
    assert Step(st, PullSlot(2), st', true);
  }

  /** The only chunk is encoded: the session completes and its send is the last one needed. */
  lemma Encodes(st: State) returns (st': State)
    requires Base(st, 1) && Registered(st, PULLED) && AtPull(st, PullEncoding(0, 0, 0))
    ensures Step(st, EncodeDone(2, true), st', true) && Freed(st'.book, TID)
  {
    hide Base;
    BaseRefs(st, 1);
    StepBase(st, EncodeDone(2, true), 1);
    hide Refs;
    st' := ApplyEncodeDone(st, 2, true);
    LastChunk(st.book);
    assert Step(st, EncodeDone(2, true), st', true);
  }

  lemma LastChunk(b: Book)
    requires b.meta == map[TID := 1] && b.sends == map[1 := READY] && b.events == []
    requires b.producers == map[SKEY := 0] && b.sessions == map[0 := PULLED]
    ensures var b1 := PutSession(b, 0, CountDone(PULLED, 0));
      && HasSession(b1, 0) && HasSession(CompleteSession(b1, 0), 0)
      && Freed(Uncount(CompleteSession(b1, 0), 0), TID)
  {
    var b1 := PutSession(b, 0, CountDone(PULLED, 0));
    var b2 := CompleteSession(b1, 0);
    assert b2.events[0].tid == TID;
    assert b2.events <= Uncount(b2, 0).events;
    assert Uncount(b2, 0).events[0].tid == TID;
  }

  const FREEING: seq<Action> := [
    Dispatch(SKEY, 3, OpenRequest(1)), OpenStart(0), Announce(TID, 5), OpenPoll(0), OpenDone(0, true, 1),
    Dispatch(SKEY, 3, PullRequest(0)), PullStart(2), PullSlot(2), EncodeDone(2, true)
  ]

  lemma ChainIsHonest(states: seq<State>, acts: seq<Action>)
    requires |states| == |acts| + 1 && states[0] == Init(1)
    requires forall i :: 0 <= i < |acts| ==> Step(states[i], acts[i], states[i + 1], true)
    ensures IsHonestRun(states, acts, 1)
  {
    forall i | 0 <= i < |acts|
      ensures Refs(states[i]) && Enabled(states[i], acts[i]) && Honest(states[i], acts[i]) && states[i + 1] == Apply(states[i], acts[i])
    {
      assert Step(states[i], acts[i], states[i + 1], true);
      hide Enabled, Honest, Apply;
      BaseRefs(states[i], 1);
    }
  }

  /** A run that keeps every promise, opens a session, pulls and encodes its chunk in the
      one slot, and ends with the transfer's completion event. */
  lemma HonestRunFrees()
    ensures exists states: seq<State> :: |states| == 10 && IsHonestRun(states, FREEING, 1) && Freed(states[9].book, TID)
  {
    hide Step, Freed, IsHonestRun, Dispatched, Waiting, Announced, Claimed, Registered, AtPull, Held, Base, Polling;
    var s1 := Dispatches();
    Reached(Init(1), FREEING[0], s1, true);
    var s2 := Opens(s1);
    Reached(s1, FREEING[1], s2, true);
    var s3 := Announces(s2);
    Reached(s2, FREEING[2], s3, true);
    var s4 := Claims(s3);
    Reached(s3, FREEING[3], s4, true);
    var s5 := Registers(s4);
    Reached(s4, FREEING[4], s5, true);
    var s6 := Pulls(s5);
    Reached(s5, FREEING[5], s6, true);
    var s7 := Counts(s6);
    Reached(s6, FREEING[6], s7, true);
    var s8 := TakesSlot(s7);
    Reached(s7, FREEING[7], s8, true);
    var s9 := Encodes(s8);
    var states := [Init(1), s1, s2, s3, s4, s5, s6, s7, s8, s9];
    forall i | 0 <= i < |FREEING| ensures Step(states[i], FREEING[i], states[i + 1], true) {
      NineSteps(i);
    }
    ChainIsHonest(states, FREEING);
    assert states[9] == s9;
  }

  lemma NineSteps(i: nat)
    requires i < 9
    ensures i == 0 || i == 1 || i == 2 || i == 3 || i == 4 || i == 5 || i == 6 || i == 7 || i == 8
  {
  }

  lemma Waits(st: State) returns (st': State)
    requires Base(st, 1) && Announced(st, 0.0)
    ensures Step(st, Tick(481.0), st', true) && Announced(st', 481.0)
  {
    hide Base;
    BaseRefs(st, 1);
    StepBase(st, Tick(481.0), 1);
    hide Refs;
    st' := st.(now := st.now + 481.0);
  }

  lemma Expires(st: State) returns (st': State)
    requires Base(st, 1) && Announced(st, 481.0)
    ensures Step(st, Sweep(TID), st', false) && Swept(st')
  {
    hide Base;
    BaseRefs(st, 1);
    StepBase(st, Sweep(TID), 1);
    hide Refs;
    st' := ApplySweep(st, TID);
    assert st'.book.events[0].tid == TID;
    assert Step(st, Sweep(TID), st', false);
  }

  /** The late open still claims the freed transfer and submits a job on its blocks. */
  lemma WakesLate(st: State) returns (st': State)
    requires Base(st, 1) && Swept(st)
    ensures Step(st, OpenPoll(0), st', true) && Freed(st'.book, TID) && !Quiet(st', TID)
  {
    hide Base;
    BaseRefs(st, 1);
    StepBase(st, OpenPoll(0), 1);
    hide Refs;
    st' := ApplyOpenPoll(st, 0);
    assert st'.tasks[0].HasJob() && st'.tasks[0].skey.tid == TID;
    assert st'.book.events == st.book.events;
    assert Step(st, OpenPoll(0), st', true);
  }

  /** An open starts polling, its transfer is announced, 481 seconds pass without the
      open running, the sweep frees the transfer, and then the open wakes up: a run in
      which only the wake-up was late ends with a job on freed blocks. */
  lemma SweepCanOvertakeOpen()
    ensures exists s1, s2, s3, s4, s5, s6 ::
      && Step(Init(1), Dispatch(SKEY, 3, OpenRequest(1)), s1, true) && Step(s1, OpenStart(0), s2, true)
      && Step(s2, Announce(TID, 5), s3, true) && Step(s3, Tick(481.0), s4, true)
      && Step(s4, Sweep(TID), s5, false) && Step(s5, OpenPoll(0), s6, true)
      && Freed(s6.book, TID) && !Quiet(s6, TID)
  {
    var s1 := Dispatches();
    Reached(Init(1), Dispatch(SKEY, 3, OpenRequest(1)), s1, true);
    var s2 := Opens(s1);
    Reached(s1, OpenStart(0), s2, true);
    var s3 := Announces(s2);
    Reached(s2, Announce(TID, 5), s3, true);
    var s4 := Waits(s3);
    Reached(s3, Tick(481.0), s4, true);
    var s5 := Expires(s4);
    Reached(s4, Sweep(TID), s5, false);
    var s6 := WakesLate(s5);
    hide *;
  }

  lemma Reached(st: State, a: Action, st': State, honest: bool)
    requires Step(st, a, st', honest)
    ensures Base(st', 1)
  {
  }
}
