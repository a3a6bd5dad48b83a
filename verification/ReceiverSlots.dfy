/** Receiver slots of the compression session helper
    (kvsfuse-vllm0.30.0/mooncake/session_process.py): consumer sessions take slots from
    one pool for the chunks they pull, give them back as chunks are decoded, and
    return the rest when they end. */
module ReceiverSlots {

  /** A failed session awaits the answer to its abort while `issue_all` goes on taking
      slots; only the final cleanup cancels it. */
  datatype Phase = Pulling | Failing | Closing

  /** `inflight` and `decoding` map chunk ids to slots: pulls without an answer, and
      decode jobs with the engine. */
  datatype Consumer = Consumer(
    total: nat, issued: nat, completed: nat, owned: set<nat>,
    inflight: map<nat, nat>, decoding: map<nat, nat>, phase: Phase)

  datatype Pool = Pool(free: seq<nat>, sessions: map<nat, Consumer>)

  datatype Action =
    | Open(i: nat, total: nat)
    | Issue(i: nat)
    | Ready(i: nat, chunk: nat)
    | Fail(i: nat)
    | Finish(i: nat)
    | Cleanup(i: nat)
    | DecodeOk(i: nat, chunk: nat)
    | DecodeFail(i: nat, chunk: nat)
    | Close(i: nat, order: seq<nat>)

  function Init(slots: nat): Pool { Pool(seq(slots, i => i), map[]) }

  ghost predicate Distinct(s: seq<nat>) {
    forall i, j :: 0 <= i < j < |s| ==> s[i] != s[j]
  }

  /** Some enumeration of a set, as Python iterates it. */
  ghost predicate Enumerates(order: seq<nat>, owned: set<nat>) {
    Distinct(order) && forall s :: s in order <==> s in owned
  }

  ghost predicate Enabled(p: Pool, a: Action) {
    match a
    case Open(i, _) => i !in p.sessions
    case Issue(i) => i in p.sessions && !p.sessions[i].phase.Closing? && p.sessions[i].issued < p.sessions[i].total && p.free != []
    case Ready(i, _) => i in p.sessions && p.sessions[i].phase.Pulling? && p.sessions[i].completed < p.sessions[i].total
    case Fail(i) => i in p.sessions && p.sessions[i].phase.Pulling?
    case Finish(i) =>
      i in p.sessions && p.sessions[i].phase.Pulling? && p.sessions[i].completed == p.sessions[i].total && p.sessions[i].decoding == map[]
    case Cleanup(i) => i in p.sessions && p.sessions[i].phase.Failing?
    case DecodeOk(i, chunk) => i in p.sessions && chunk in p.sessions[i].decoding
    case DecodeFail(i, chunk) => i in p.sessions && chunk in p.sessions[i].decoding
    case Close(i, order) =>
      i in p.sessions && p.sessions[i].phase.Closing? && p.sessions[i].decoding == map[] && Enumerates(order, p.sessions[i].owned)
  }

  function Put(p: Pool, i: nat, x: Consumer): Pool { p.(sessions := p.sessions[i := x]) }

  /** One turn of `issue_all`. */
  function Issued(p: Pool, i: nat): Pool
    requires i in p.sessions && p.free != []
  {
    var x, slot := p.sessions[i], p.free[0];
    Put(p.(free := p.free[1..]), i,
        x.(issued := x.issued + 1, owned := x.owned + {slot}, inflight := x.inflight[x.issued := slot]))
  }

  /** An answer for a chunk that was not pulled fails the session. */
  function Received(p: Pool, i: nat, chunk: nat): Pool
    requires i in p.sessions
  {
    var x := p.sessions[i];
    if chunk !in x.inflight then Put(p, i, x.(phase := Failing))
    else Put(p, i, x.(completed := x.completed + 1, inflight := x.inflight - {chunk}, decoding := x.decoding[chunk := x.inflight[chunk]]))
  }

  /** `_decode_and_release` after its job answers; a failed job keeps the slot owned. */
  function Decoded(p: Pool, i: nat, chunk: nat, ok: bool): Pool
    requires i in p.sessions && chunk in p.sessions[i].decoding
  {
    var x := p.sessions[i];
    var slot, rest := x.decoding[chunk], x.decoding - {chunk};
    if ok then Put(p.(free := p.free + [slot]), i, x.(owned := x.owned - {slot}, decoding := rest))
    else Put(p, i, x.(decoding := rest))
  }

  function Closed(p: Pool, i: nat, order: seq<nat>): Pool { Pool(p.free + order, p.sessions - {i}) }

  ghost function Apply(p: Pool, a: Action): Pool
    requires Enabled(p, a)
  {
    match a
    case Open(i, total) => Put(p, i, Consumer(total, 0, 0, {}, map[], map[], Pulling))
    case Issue(i) => Issued(p, i)
    case Ready(i, chunk) => Received(p, i, chunk)
    case Fail(i) => Put(p, i, p.sessions[i].(phase := Failing))
    case Finish(i) => Put(p, i, p.sessions[i].(phase := Closing))
    case Cleanup(i) => Put(p, i, p.sessions[i].(phase := Closing))
    case DecodeOk(i, chunk) => Decoded(p, i, chunk, true)
    case DecodeFail(i, chunk) => Decoded(p, i, chunk, false)
    case Close(i, order) => Closed(p, i, order)
  }

  // ----- Conservation -----

  predicate Owns(p: Pool, i: nat, s: nat) { i in p.sessions && s in p.sessions[i].owned }

  ghost predicate OwnedBySome(p: Pool, s: nat) {
    exists i :: Owns(p, i, s)
  }

  /** Owned slots are slots, are not free, and have one owner. */
  ghost predicate OwnedApart(p: Pool, slots: nat) {
    && (forall i, s: nat :: Owns(p, i, s) ==> s < slots && s !in p.free)
    && (forall i, j, s :: Owns(p, i, s) && Owns(p, j, s) ==> i == j)
  }

  ghost predicate NoneLost(p: Pool, slots: nat) {
    forall s :: 0 <= s < slots ==> s in p.free || OwnedBySome(p, s)
  }

  /** Every slot is free once or owned by exactly one session, never both. */
  ghost predicate Conserved(p: Pool, slots: nat) {
    && Distinct(p.free) && (forall s :: s in p.free ==> s < slots)
    && OwnedApart(p, slots) && NoneLost(p, slots)
  }

  /** Within a session, no two chunks use one slot, and chunks use owned slots only. */
  ghost predicate Separate(x: Consumer) {
    && (forall c :: c in x.inflight ==> x.inflight[c] in x.owned && c < x.issued)
    && (forall c :: c in x.decoding ==> x.decoding[c] in x.owned && c < x.issued && c !in x.inflight)
    && (forall c, d :: c in x.inflight && d in x.inflight && c != d ==> x.inflight[c] != x.inflight[d])
    && (forall c, d :: c in x.decoding && d in x.decoding && c != d ==> x.decoding[c] != x.decoding[d])
    && (forall c, d :: c in x.inflight && d in x.decoding ==> x.inflight[c] != x.decoding[d])
  }

  ghost predicate AllSeparate(p: Pool) {
    forall i :: i in p.sessions ==> Separate(p.sessions[i])
  }

  lemma StillOwned(p: Pool, q: Pool, s: nat)
    requires OwnedBySome(p, s) && forall i :: Owns(p, i, s) ==> Owns(q, i, s)
    ensures OwnedBySome(q, s)
  {
    hide Owns;
    var i :| Owns(p, i, s);
    assert Owns(q, i, s);
  }

  /** A slot changes hands between the free queue and session i; everything else stays. */
  lemma Moved(p: Pool, q: Pool, slots: nat, i: nat, moved: set<nat>)
    requires Conserved(p, slots) && Distinct(q.free)
    requires forall s :: s !in moved ==> (s in q.free <==> s in p.free)
    requires forall j, s :: j != i || s !in moved ==> (Owns(q, j, s) <==> Owns(p, j, s))
    requires forall s :: s in moved ==> (s in p.free || Owns(p, i, s)) && (s in q.free <==> !Owns(q, i, s))
    ensures Conserved(q, slots)
  {
    hide Distinct, Owns, OwnedBySome;
    forall s | 0 <= s < slots ensures s in q.free || OwnedBySome(q, s) {
      if s in moved {
        if s !in q.free { SomeOwner(q, i, s); }
      } else if s !in p.free {
        StillOwned(p, q, s);
      }
    }
  }

  lemma SomeOwner(p: Pool, i: nat, s: nat)
    requires Owns(p, i, s)
    ensures OwnedBySome(p, s)
  {
  }

  lemma IssueConserves(p: Pool, i: nat, slots: nat)
    requires Conserved(p, slots) && Enabled(p, Issue(i))
    ensures Conserved(Issued(p, i), slots)
  {
    hide Distinct, Conserved;
    assert Distinct(p.free) by { FreeDistinct(p, slots); }
    TakeFirst(p.free);
    Moved(p, Issued(p, i), slots, i, {p.free[0]});
  }

  lemma FreeDistinct(p: Pool, slots: nat)
    requires Conserved(p, slots)
    ensures Distinct(p.free) && forall i, s :: Owns(p, i, s) ==> s !in p.free
  {
  }

  lemma TakeFirst(free: seq<nat>)
    requires free != [] && Distinct(free)
    ensures Distinct(free[1..]) && forall s :: s in free[1..] <==> s in free && s != free[0]
  {
    forall s | s in free && s != free[0] ensures s in free[1..] {
      var k :| 0 <= k < |free| && free[k] == s;
      assert free[1..][k - 1] == s;
    }
  }

  lemma PutBack(free: seq<nat>, order: seq<nat>)
    requires Distinct(free) && Distinct(order) && forall s :: s in order ==> s !in free
    ensures Distinct(free + order) && forall s :: s in free + order <==> s in free || s in order
  {
    var all := free + order;
    forall i, j | 0 <= i < j < |all| ensures all[i] != all[j] {
      if i < |free| <= j {
        assert all[j] == order[j - |free|] && all[i] == free[i];
        assert order[j - |free|] in order && free[i] in free;
      } else if i >= |free| {
        assert all[i] == order[i - |free|] && all[j] == order[j - |free|];
      }
    }
  }

  lemma DecodeOkConserves(p: Pool, i: nat, chunk: nat, slots: nat)
    requires Conserved(p, slots) && AllSeparate(p) && Enabled(p, DecodeOk(i, chunk))
    ensures Conserved(Decoded(p, i, chunk, true), slots)
  {
    hide Distinct, Conserved;
    FreeDistinct(p, slots);
    var slot := p.sessions[i].decoding[chunk];
    assert Separate(p.sessions[i]);
    hide Separate;
    assert Owns(p, i, slot);
    Single(slot);
    PutBack(p.free, [slot]);
    Moved(p, Decoded(p, i, chunk, true), slots, i, {slot});
  }

  lemma Single(s: nat)
    ensures Distinct([s])
  {
  }

  lemma CloseConserves(p: Pool, i: nat, order: seq<nat>, slots: nat)
    requires Conserved(p, slots) && Enabled(p, Close(i, order))
    ensures Conserved(Closed(p, i, order), slots)
  {
    hide Distinct, Conserved;
    FreeDistinct(p, slots);
    assert forall s :: s in order ==> Owns(p, i, s);
    PutBack(p.free, order);
    Moved(p, Closed(p, i, order), slots, i, p.sessions[i].owned);
  }

  /** Actions that move no slot. */
  lemma SameConserves(p: Pool, q: Pool, slots: nat)
    requires Conserved(p, slots) && q.free == p.free && forall i, s :: Owns(q, i, s) <==> Owns(p, i, s)
    ensures Conserved(q, slots)
  {
    hide Distinct, Conserved, Owns;
    FreeDistinct(p, slots);
    Moved(p, q, slots, 0, {});
  }

  lemma ConservedStep(p: Pool, a: Action, slots: nat)
    requires Conserved(p, slots) && AllSeparate(p) && Enabled(p, a)
    ensures Conserved(Apply(p, a), slots)
  {
    hide Conserved, AllSeparate, Enumerates;
    match a
    case Issue(i) => IssueConserves(p, i, slots);
    case DecodeOk(i, chunk) => DecodeOkConserves(p, i, chunk, slots);
    case DecodeFail(_, _) => SameConserves(p, Apply(p, a), slots);
    case Close(i, order) => CloseConserves(p, i, order, slots);
    case Open(_, _) => SameConserves(p, Apply(p, a), slots);
    case Ready(_, _) => SameConserves(p, Apply(p, a), slots);
    case Fail(_) => SameConserves(p, Apply(p, a), slots);
    case Finish(_) => SameConserves(p, Apply(p, a), slots);
    case Cleanup(_) => SameConserves(p, Apply(p, a), slots);
  }

  lemma IssuedSeparate(x: Consumer, slot: nat)
    requires Separate(x) && slot !in x.owned
    ensures Separate(x.(issued := x.issued + 1, owned := x.owned + {slot}, inflight := x.inflight[x.issued := slot]))
  {
  }

  lemma ReceivedSeparate(x: Consumer, chunk: nat)
    requires Separate(x) && chunk in x.inflight
    ensures Separate(x.(completed := x.completed + 1, inflight := x.inflight - {chunk}, decoding := x.decoding[chunk := x.inflight[chunk]]))
  {
  }

  lemma IssueSeparate(p: Pool, i: nat, slots: nat)
    requires Conserved(p, slots) && AllSeparate(p) && Enabled(p, Issue(i))
    ensures AllSeparate(Issued(p, i))
  {
    hide Conserved, Separate;
    var x, slot := p.sessions[i], p.free[0];
    FreeDistinct(p, slots);
    assert !Owns(p, i, slot);
    IssuedSeparate(x, slot);
  }

  lemma DecodedSeparate(x: Consumer, chunk: nat)
    requires Separate(x) && chunk in x.decoding
    ensures Separate(x.(owned := x.owned - {x.decoding[chunk]}, decoding := x.decoding - {chunk}))
    ensures Separate(x.(decoding := x.decoding - {chunk}))
  {
  }

  lemma PhaseSeparate(x: Consumer, phase: Phase)
    requires Separate(x)
    ensures Separate(x.(phase := phase))
  {
  }

  lemma FreshSeparate(total: nat)
    ensures Separate(Consumer(total, 0, 0, {}, map[], map[], Pulling))
  {
  }

  lemma SeparateStep(p: Pool, a: Action, slots: nat)
    requires Conserved(p, slots) && AllSeparate(p) && Enabled(p, a)
    ensures AllSeparate(Apply(p, a))
  {
    hide Conserved, Enumerates, Separate;
    match a
    case Issue(i) => IssueSeparate(p, i, slots);
    case Ready(i, chunk) =>
      if chunk in p.sessions[i].inflight { ReceivedSeparate(p.sessions[i], chunk); } else { PhaseSeparate(p.sessions[i], Failing); }
    case DecodeOk(i, chunk) => DecodedSeparate(p.sessions[i], chunk);
    case DecodeFail(i, chunk) => DecodedSeparate(p.sessions[i], chunk);
    case Close(i, order) =>
    case Open(_, total) => FreshSeparate(total);
    case Fail(i) => PhaseSeparate(p.sessions[i], Failing);
    case Finish(i) => PhaseSeparate(p.sessions[i], Closing);
    case Cleanup(i) => PhaseSeparate(p.sessions[i], Closing);
  }

  ghost predicate IsRun(states: seq<Pool>, acts: seq<Action>) {
    && |states| == |acts| + 1
    && forall k :: 0 <= k < |acts| ==> Enabled(states[k], acts[k]) && states[k + 1] == Apply(states[k], acts[k])
  }

  /** In every interleaving of consumer sessions, free and owned slots are exactly the
      initial slots without duplicates, and no two chunks of any session share one. */
  lemma {:induction false} ReceiverSlotConservation(states: seq<Pool>, acts: seq<Action>, slots: nat, k: nat)
    requires IsRun(states, acts) && k < |states| && states[0] == Init(slots)
    ensures Conserved(states[k], slots) && AllSeparate(states[k])
  {
    hide Enabled, Apply;
    if k == 0 {
      Initially(slots);
    } else {
      ReceiverSlotConservation(states, acts, slots, k - 1);
      hide Conserved, AllSeparate;
      ConservedStep(states[k - 1], acts[k - 1], slots);
      SeparateStep(states[k - 1], acts[k - 1], slots);
    }
  }

  lemma Initially(slots: nat)
    ensures Conserved(Init(slots), slots) && AllSeparate(Init(slots))
  {
    var free := Init(slots).free;
    forall s | 0 <= s < slots ensures s in free { assert free[s] == s; }
  }

  // ----- No chunk is skipped -----

  /** Chunks are pulled in order, and each pulled chunk is in flight or answered. */
  ghost predicate Counted(x: Consumer) {
    && x.issued <= x.total && x.completed + |x.inflight| == x.issued
    && forall c :: c in x.inflight ==> c < x.issued
  }

  ghost predicate AllCounted(p: Pool) {
    forall i :: i in p.sessions ==> Counted(p.sessions[i])
  }

  lemma IssuedCounted(x: Consumer, slot: nat)
    requires Counted(x) && x.issued < x.total
    ensures Counted(x.(issued := x.issued + 1, owned := x.owned + {slot}, inflight := x.inflight[x.issued := slot]))
  {
    assert x.inflight[x.issued := slot].Keys == x.inflight.Keys + {x.issued};
    assert |x.inflight[x.issued := slot]| == |x.inflight[x.issued := slot].Keys|;
    assert |x.inflight| == |x.inflight.Keys|;
  }

  lemma AnsweredCounted(x: Consumer, chunk: nat, decoding: map<nat, nat>)
    requires Counted(x) && chunk in x.inflight
    ensures Counted(x.(completed := x.completed + 1, inflight := x.inflight - {chunk}, decoding := decoding))
  {
    var rest := x.inflight - {chunk};
    assert x.inflight.Keys == rest.Keys + {chunk};
    assert |x.inflight| == |x.inflight.Keys| && |rest| == |rest.Keys|;
  }

  lemma OtherCounted(x: Consumer, x': Consumer)
    requires Counted(x) && x'.issued == x.issued && x'.total == x.total && x'.completed == x.completed && x'.inflight == x.inflight
    ensures Counted(x')
  {
  }

  lemma FreshCounted(total: nat)
    ensures Counted(Consumer(total, 0, 0, {}, map[], map[], Pulling))
  {
  }

  lemma CountedStep(p: Pool, a: Action)
    requires AllCounted(p) && Enabled(p, a)
    ensures AllCounted(Apply(p, a))
  {
    hide Counted, Enumerates;
    match a
    case Issue(i) => IssuedCounted(p.sessions[i], p.free[0]);
    case Ready(i, chunk) =>
      var x := p.sessions[i];
      if chunk in x.inflight { AnsweredCounted(x, chunk, x.decoding[chunk := x.inflight[chunk]]); } else { OtherCounted(x, x.(phase := Failing)); }
    case Open(_, total) => FreshCounted(total);
    case Fail(i) => OtherCounted(p.sessions[i], Apply(p, a).sessions[i]);
    case Finish(i) => OtherCounted(p.sessions[i], Apply(p, a).sessions[i]);
    case Cleanup(i) => OtherCounted(p.sessions[i], Apply(p, a).sessions[i]);
    case DecodeOk(i, _) => OtherCounted(p.sessions[i], Apply(p, a).sessions[i]);
    case DecodeFail(i, _) => OtherCounted(p.sessions[i], Apply(p, a).sessions[i]);
    case Close(_, _) =>
  }

  lemma {:induction false} AlwaysCounted(states: seq<Pool>, acts: seq<Action>, slots: nat, k: nat)
    requires IsRun(states, acts) && k < |states| && states[0] == Init(slots)
    ensures AllCounted(states[k])
  {
    hide Enabled, Apply, Counted;
    if k > 0 {
      AlwaysCounted(states, acts, slots, k - 1);
      CountedStep(states[k - 1], acts[k - 1]);
    }
  }

  /** A session finishes only when every one of its chunks was pulled and answered and no
      decode job is left; the next chunk it pulls is always the lowest not pulled yet. */
  lemma FinishMeansAll(states: seq<Pool>, acts: seq<Action>, slots: nat, k: nat, i: nat)
    requires IsRun(states, acts) && k < |acts| && states[0] == Init(slots)
    ensures acts[k] == Finish(i) ==>
      var x := states[k].sessions[i]; x.issued == x.completed == x.total && x.inflight == map[] && x.decoding == map[]
    ensures acts[k] == Issue(i) ==>
      var x, x' := states[k].sessions[i], states[k + 1].sessions[i];
      && x.issued !in x.inflight && x'.issued == x.issued + 1 && x'.issued <= x'.total
      && x'.inflight == x.inflight[x.issued := states[k].free[0]] && states[k + 1].free == states[k].free[1..]
  {
    AlwaysCounted(states, acts, slots, k);
    if acts[k] == Finish(i) { assert Counted(states[k].sessions[i]); }
    if acts[k] == Issue(i) { assert Counted(states[k].sessions[i]); AlwaysCounted(states, acts, slots, k + 1); }
  }

  // ----- Slots are freed as chunks are decoded -----

  /** The session owns the slots of its chunks in flight or being decoded, and no others. */
  ghost predicate InUse(x: Consumer) { x.owned == x.inflight.Values + x.decoding.Values }

  lemma IssuedInUse(x: Consumer, slot: nat)
    requires InUse(x) && x.issued !in x.inflight
    ensures InUse(x.(issued := x.issued + 1, owned := x.owned + {slot}, inflight := x.inflight[x.issued := slot]))
  {
    var after := x.inflight[x.issued := slot];
    assert slot in after.Values by { assert after[x.issued] == slot; }
    forall s | s in x.inflight.Values ensures s in after.Values {
      var c :| c in x.inflight && x.inflight[c] == s;
      assert after[c] == s;
    }
  }

  lemma AnsweredInUse(x: Consumer, chunk: nat)
    requires InUse(x) && Separate(x) && chunk in x.inflight
    ensures InUse(x.(completed := x.completed + 1, inflight := x.inflight - {chunk}, decoding := x.decoding[chunk := x.inflight[chunk]]))
  {
    var slot, rest, more := x.inflight[chunk], x.inflight - {chunk}, x.decoding[chunk := x.inflight[chunk]];
    forall s ensures s in rest.Values + more.Values <==> s in x.inflight.Values + x.decoding.Values {
      if s in x.inflight.Values {
        var c :| c in x.inflight && x.inflight[c] == s;
        if c == chunk { assert more[chunk] == s; } else { assert rest[c] == s; }
      } else if s in x.decoding.Values {
        var c :| c in x.decoding && x.decoding[c] == s;
        assert more[c] == s;
      }
    }
  }

  lemma DecodedInUse(x: Consumer, chunk: nat)
    requires InUse(x) && Separate(x) && chunk in x.decoding
    ensures InUse(x.(owned := x.owned - {x.decoding[chunk]}, decoding := x.decoding - {chunk}))
  {
    var slot, rest := x.decoding[chunk], x.decoding - {chunk};
    forall s ensures s in x.inflight.Values + rest.Values <==> s in x.owned && s != slot {
      if s in x.decoding.Values && s != slot {
        var c :| c in x.decoding && x.decoding[c] == s;
        assert rest[c] == s;
      }
    }
  }

  lemma PhaseInUse(x: Consumer, phase: Phase)
    requires InUse(x)
    ensures InUse(x.(phase := phase))
  {
  }

  lemma FreshInUse(total: nat)
    ensures InUse(Consumer(total, 0, 0, {}, map[], map[], Pulling))
  {
  }

  lemma InUseStep(p: Pool, a: Action, i: nat)
    requires AllSeparate(p) && Enabled(p, a) && (i in p.sessions ==> InUse(p.sessions[i]))
    requires !(a.DecodeFail? && a.i == i) && i in Apply(p, a).sessions
    ensures InUse(Apply(p, a).sessions[i])
  {
    if a.i == i && i in p.sessions { assert Separate(p.sessions[i]); }
    hide InUse, Enumerates;
    match a
    case Issue(j) =>
      if j == i {
        NextNotInFlight(p.sessions[i]);
        IssuedInUse(p.sessions[i], p.free[0]);
      }
    case Ready(j, chunk) =>
      if j == i {
        if chunk in p.sessions[i].inflight { AnsweredInUse(p.sessions[i], chunk); } else { PhaseInUse(p.sessions[i], Failing); }
      }
    case DecodeOk(j, chunk) => if j == i { DecodedInUse(p.sessions[i], chunk); }
    case Open(_, total) => FreshInUse(total);
    case Fail(j) => if j == i { PhaseInUse(p.sessions[i], Failing); }
    case Finish(j) => if j == i { PhaseInUse(p.sessions[i], Closing); }
    case Cleanup(j) => if j == i { PhaseInUse(p.sessions[i], Closing); }
    case DecodeFail(_, _) =>
    case Close(_, _) =>
  }

  lemma NextNotInFlight(x: Consumer)
    requires Separate(x)
    ensures x.issued !in x.inflight
  {
  }

  /** As long as no decode of a session failed, its slots are exactly those of chunks in
      flight or being decoded: a decoded chunk's slot is free for the next one at once. */
  lemma {:induction false} SlotsInUse(states: seq<Pool>, acts: seq<Action>, slots: nat, k: nat, i: nat)
    requires IsRun(states, acts) && k < |states| && states[0] == Init(slots) && i in states[k].sessions
    requires forall j :: 0 <= j < k ==> !(acts[j].DecodeFail? && acts[j].i == i)
    ensures states[k].sessions[i].owned == states[k].sessions[i].inflight.Values + states[k].sessions[i].decoding.Values
  {
    hide Enabled, Apply, Conserved;
    if k > 0 {
      if i in states[k - 1].sessions { SlotsInUse(states, acts, slots, k - 1, i); }
      ReceiverSlotConservation(states, acts, slots, k - 1);
      InUseStep(states[k - 1], acts[k - 1], i);
    }
  }

  /** Two sessions never use one slot at the same time. */
  lemma NoSharedSlot(p: Pool, slots: nat, i: nat, c: nat, j: nat, d: nat)
    requires Conserved(p, slots) && AllSeparate(p) && i in p.sessions && j in p.sessions
    requires c in p.sessions[i].inflight.Keys + p.sessions[i].decoding.Keys
    requires d in p.sessions[j].inflight.Keys + p.sessions[j].decoding.Keys
    requires SlotOf(p.sessions[i], c) == SlotOf(p.sessions[j], d)
    ensures i == j && c == d
  {
    assert Separate(p.sessions[i]) && Separate(p.sessions[j]);
    var s := SlotOf(p.sessions[i], c);
    assert Owns(p, i, s) && Owns(p, j, s);
  }

  function SlotOf(x: Consumer, c: nat): nat
    requires c in x.inflight.Keys + x.decoding.Keys
  {
    if c in x.inflight then x.inflight[c] else x.decoding[c]
  }

  // ----- The helper's own queue -----

  class ReceiverQueue {
    var receiverSlots: seq<nat>
    var consumers: map<nat, Consumer>

    ghost function View(): Pool
      reads this
    {
      Pool(receiverSlots, consumers)
    }

    constructor (slots: nat)
      ensures View() == Init(slots)
    {
      receiverSlots, consumers := seq(slots, i => i), map[];
    }

    method IssueNext(i: nat) returns (slot: nat)
      requires Enabled(View(), Issue(i))
      modifies this
      ensures View() == Apply(old(View()), Issue(i)) && slot == old(receiverSlots)[0]
    {
      slot := receiverSlots[0];
      receiverSlots := receiverSlots[1..];
      var x := consumers[i];
      consumers := consumers[i := x.(issued := x.issued + 1, owned := x.owned + {slot}, inflight := x.inflight[x.issued := slot])];
    }

    method DecodeAndRelease(i: nat, chunk: nat, ok: bool)
      requires Enabled(View(), DecodeOk(i, chunk))
      modifies this
      ensures View() == Decoded(old(View()), i, chunk, ok)
    {
      var x := consumers[i];
      var slot := x.decoding[chunk];
      var rest := x.decoding - {chunk};
      if !ok {
        consumers := consumers[i := x.(decoding := rest)];
        return;
      }
      consumers := consumers[i := x.(owned := x.owned - {slot}, decoding := rest)];
      receiverSlots := receiverSlots + [slot];
    }

    /** The end of `_run_consumer_session`: owned slots go back in the set's own order. */
    method ReturnOwned(i: nat) returns (ghost order: seq<nat>)
      requires i in consumers && consumers[i].phase.Closing? && consumers[i].decoding == map[]
      modifies this
      ensures Enabled(old(View()), Close(i, order)) && View() == Apply(old(View()), Close(i, order))
    {
      var left := consumers[i].owned;
      order := [];
      while left != {}
        invariant left <= old(consumers[i].owned)
        invariant receiverSlots == old(receiverSlots) + order && consumers == old(consumers)
        invariant Distinct(order) && forall s :: s in order <==> s in old(consumers[i].owned) && s !in left
        decreases left
      {
        var slot :| slot in left;
        receiverSlots := receiverSlots + [slot];
        order := order + [slot];
        left := left - {slot};
      }
      consumers := consumers - {i};
    }
  }
}
