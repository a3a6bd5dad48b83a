/** The consumer half of the NCCL transport (kvserve_v1/transport/nccl_transport.py)
    with the load loop that drives it
    (kvserve_v1/connector/compressed_kv_connector.py): staging credits, the one
    priority payload of a decode step, and the order of published payloads. */
module RecvBudget {
  import opened Wrappers
  import opened Payloads

  /** `received` and `buffered` list the payloads of all deques in publication order.
      `admitted`, `completed`, `goods`, `published` and `consumed` are history; `goods`
      says of each completed receive whether it succeeded. */
  datatype Receiver = Receiver(
    capacity: nat, reserved: int, expected: set<nat>, priority: Option<nat>,
    completions: seq<Item>, received: seq<Item>, buffered: seq<Item>, working: Option<Item>,
    inStep: bool, pending: seq<nat>,
    admitted: seq<Item>, completed: seq<Item>, goods: seq<bool>, published: seq<Item>, consumed: seq<Item>)
  {
    function Worked(): seq<Item> { if working.None? then [] else [working.value] }

    /** Admitted payloads whose credit has not been released. */
    function Held(): seq<Item> { completions + received + buffered + Worked() }
  }

  datatype Event =
    | BeginStep(ids: seq<nat>)
    | Offer(item: Item, oom: bool)
    | Complete(ok: bool)
    | Drain
    | Consume
    | Release
    | Crash
    | TimeOut
    | EndStep

  function Fresh(recvBufferSize: int): Receiver {
    Receiver(if recvBufferSize < 1 then 1 else recvBufferSize, 0, {}, None, [], [], [], None, false, [], [], [], [], [], [])
  }

  // ----- Credits -----

  predicate Blocked(r: Receiver, bytes: nat) {
    r.reserved > 0 && r.reserved + bytes > r.capacity
  }

  predicate Granted(r: Receiver, item: Item) {
    Blocked(r, item.bytes) && item.id in r.expected && r.priority.None?
  }

  /** The answer of `_reserve_received(…, wait=False)`. */
  predicate Admits(r: Receiver, item: Item) {
    !Blocked(r, item.bytes) || Granted(r, item)
  }

  function Reserved(r: Receiver, item: Item): Receiver {
    r.(reserved := r.reserved + item.bytes, priority := if Granted(r, item) then Some(item.id) else r.priority)
  }

  /** `release_received` */
  function Released(r: Receiver, item: Item): Receiver {
    if item.bytes <= 0 then r
    else r.(reserved := if r.reserved < item.bytes then 0 else r.reserved - item.bytes,
            priority := if r.priority == Some(item.id) then None else r.priority)
  }

  // ----- The load loop -----

  predicate HasId(s: seq<Item>, id: nat) {
    exists i :: 0 <= i < |s| && s[i].id == id
  }

  /** Index of the first pending request with a buffered payload, or the number of pending requests. */
  function FirstReady(pending: seq<nat>, buffered: seq<Item>): (k: nat)
    ensures k <= |pending| && (k < |pending| ==> HasId(buffered, pending[k]))
    ensures forall i :: 0 <= i < k ==> !HasId(buffered, pending[i])
  {
    if pending == [] || HasId(buffered, pending[0]) then 0 else 1 + FirstReady(pending[1..], buffered)
  }

  function Without<T>(s: seq<T>, k: nat): seq<T>
    requires k < |s|
  {
    s[..k] + s[k + 1..]
  }

  // ----- Transitions -----

  predicate Enabled(r: Receiver, e: Event) {
    match e
    case BeginStep(_) => !r.inStep
    case Offer(_, _) => true
    case Complete(_) => r.completions != []
    case Drain => true
    case Consume => r.inStep && r.working.None? && FirstReady(r.pending, r.buffered) < |r.pending|
    case Release => r.inStep && r.working.Some?
    case Crash => r.inStep && r.working.Some?
    case TimeOut => r.inStep && r.working.None? && r.pending != [] && FirstReady(r.pending, r.buffered) == |r.pending|
    case EndStep => r.inStep && r.working.None? && r.pending == []
  }

  function OfferStep(r: Receiver, item: Item, oom: bool): Receiver {
    if !Admits(r, item) then r
    else if oom then Released(Reserved(r, item), item)
    else Reserved(r, item).(completions := r.completions + [item], admitted := r.admitted + [item])
  }

  /** What the listener answers on the control socket. */
  function Reply(r: Receiver, item: Item, oom: bool): Ack {
    if !Admits(r, item) then AckRetry else if oom then AckOom else AckOk
  }

  function CompleteStep(r: Receiver, ok: bool): Receiver
    requires r.completions != []
  {
    var x := r.completions[0];
    var r' := r.(completions := r.completions[1..], completed := r.completed + [x], goods := r.goods + [ok]);
    if ok then r'.(received := r.received + [x], published := r.published + [x]) else Released(r', x)
  }

  function ConsumeStep(r: Receiver): Receiver
    requires FirstReady(r.pending, r.buffered) < |r.pending|
  {
    var k := FirstReady(r.pending, r.buffered);
    ReadyItem(r.buffered, r.pending[k]);
    var j := RetryIndex(r.buffered, r.pending[k]);
    r.(pending := Without(r.pending, k), buffered := Without(r.buffered, j), working := Some(r.buffered[j]),
       consumed := r.consumed + [r.buffered[j]])
  }

  function ReleaseStep(r: Receiver): Receiver
    requires r.working.Some?
  {
    Released(r.(working := None), r.working.value)
  }

  function Apply(r: Receiver, e: Event): Receiver
    requires Enabled(r, e)
  {
    match e
    case BeginStep(ids) => r.(inStep := true, pending := ids, expected := set id | id in ids)
    case Offer(item, oom) => OfferStep(r, item, oom)
    case Complete(ok) => CompleteStep(r, ok)
    case Drain => r.(buffered := r.buffered + r.received, received := [])
    case Consume => ConsumeStep(r)
    case Release => ReleaseStep(r)
    case Crash => ReleaseStep(r).(inStep := false, pending := [])
    case TimeOut => r.(inStep := false, pending := [], expected := {})
    case EndStep => r.(inStep := false, expected := {})
  }

  ghost predicate IsRun(states: seq<Receiver>, evs: seq<Event>) {
    && |states| == |evs| + 1
    && forall i :: 0 <= i < |evs| ==> Enabled(states[i], evs[i]) && states[i + 1] == Apply(states[i], evs[i])
  }

  // ----- Accounting -----

  /** `_recv_reserved_bytes` is the bytes admitted and not yet released. */
  ghost predicate Accounted(r: Receiver) {
    r.reserved == Total(r.Held())
  }

  function Sum4(r: Receiver): nat {
    Total(r.completions) + Total(r.received) + Total(r.buffered) + Total(r.Worked())
  }

  lemma HeldTotal(r: Receiver)
    ensures Total(r.Held()) == Sum4(r)
  {
    TotalAppend(r.completions + r.received + r.buffered, r.Worked());
    TotalAppend(r.completions + r.received, r.buffered);
    TotalAppend(r.completions, r.received);
  }

  lemma WithoutTotal(s: seq<Item>, k: nat)
    requires k < |s|
    ensures Total(Without(s, k)) == Total(s) - s[k].bytes
  {
    hide Total;
    var rest := s[k + 1..];
    assert s == s[..k] + ([s[k]] + rest);
    TotalAppend(s[..k], [s[k]] + rest);
    TotalAppend([s[k]], rest);
    TotalOne(s[k]);
    TotalAppend(s[..k], rest);
  }

  lemma OfferAccounted(r: Receiver, item: Item, oom: bool)
    requires Accounted(r)
    ensures Accounted(OfferStep(r, item, oom))
  {
    hide Total;
    HeldTotal(r);
    HeldTotal(OfferStep(r, item, oom));
    TotalOne(item);
    TotalAppend(r.completions, [item]);
  }

  lemma CompleteAccounted(r: Receiver, ok: bool)
    requires Accounted(r) && r.completions != []
    ensures Accounted(CompleteStep(r, ok)) && r.reserved >= r.completions[0].bytes
  {
    hide Total;
    HeldTotal(r);
    HeldTotal(CompleteStep(r, ok));
    TotalFirst(r.completions);
    TotalOne(r.completions[0]);
    TotalAppend(r.received, [r.completions[0]]);
  }

  lemma ConsumeAccounted(r: Receiver)
    requires Accounted(r) && Enabled(r, Consume)
    ensures Accounted(ConsumeStep(r))
  {
    hide Total;
    HeldTotal(r);
    HeldTotal(ConsumeStep(r));
    var j := RetryIndex(r.buffered, r.pending[FirstReady(r.pending, r.buffered)]);
    TotalOne(r.buffered[j]);
    WithoutTotal(r.buffered, j);
    assert Total(r.Worked()) == 0 by { EmptyTotal(); }
  }

  lemma ReleaseAccounted(r: Receiver)
    requires Accounted(r) && r.working.Some?
    ensures Accounted(ReleaseStep(r)) && r.reserved >= r.working.value.bytes
  {
    hide Total;
    HeldTotal(r);
    HeldTotal(ReleaseStep(r));
    TotalOne(r.working.value);
    EmptyTotal();
  }

  lemma DrainAccounted(r: Receiver)
    requires Accounted(r)
    ensures Accounted(Apply(r, Drain))
  {
    hide Total;
    HeldTotal(r);
    HeldTotal(Apply(r, Drain));
    TotalAppend(r.buffered, r.received);
    EmptyTotal();
  }

  lemma AccountedStep(r: Receiver, e: Event)
    requires Accounted(r) && Enabled(r, e)
    ensures Accounted(Apply(r, e))
  {
    hide Total;
    match e
    case Offer(item, oom) => OfferAccounted(r, item, oom);
    case Complete(ok) => CompleteAccounted(r, ok);
    case Drain => DrainAccounted(r);
    case Consume => ConsumeAccounted(r);
    case Release => ReleaseAccounted(r);
    case Crash => ReleaseAccounted(r);
    case BeginStep(_) =>
    case TimeOut =>
    case EndStep =>
  }

  lemma {:induction false} CreditAccounting(states: seq<Receiver>, evs: seq<Event>, i: nat)
    requires IsRun(states, evs) && i < |states| && Accounted(states[0])
    ensures Accounted(states[i])
  {
    if i > 0 {
      CreditAccounting(states, evs, i - 1);
      AccountedStep(states[i - 1], evs[i - 1]);
    }
  }

  /** What giving back the credit of payload x leaves: its bytes exactly, and the priority
      of its request if it had a size. */
  ghost predicate GivenBack(r: Receiver, r': Receiver, x: Item) {
    && r'.reserved == r.reserved - x.bytes
    && r'.priority == if x.bytes > 0 && r.priority == Some(x.id) then None else r.priority
  }

  /** The clamp in `release_received` never bites: every release subtracts its bytes exactly. */
  lemma ClampNeverBites(states: seq<Receiver>, evs: seq<Event>, i: nat)
    requires IsRun(states, evs) && i < |evs| && Accounted(states[0])
    ensures evs[i] == Complete(false) ==> GivenBack(states[i], states[i + 1], states[i].completions[0])
    ensures evs[i].Release? || evs[i].Crash? ==> GivenBack(states[i], states[i + 1], states[i].working.value)
    ensures evs[i].Offer? && evs[i].oom ==> states[i + 1].reserved == states[i].reserved
  {
    CreditAccounting(states, evs, i);
    match evs[i]
    case Complete(ok) => CompleteAccounted(states[i], ok);
    case Release => ReleaseAccounted(states[i]);
    case Crash => ReleaseAccounted(states[i]);
    case Offer(_, _) => assert states[i].reserved >= 0;
    case BeginStep(_) =>
    case Drain =>
    case Consume =>
    case TimeOut =>
    case EndStep =>
  }

  /** A decode step is under way: one has begun and has not ended, timed out or crashed. */
  function StepUnderWay(evs: seq<Event>): bool {
    if evs == [] then false
    else
      match evs[|evs| - 1]
      case BeginStep(_) => true
      case EndStep => false
      case TimeOut => false
      case Crash => false
      case _ => StepUnderWay(evs[..|evs| - 1])
  }

  /** The requests of the last step begun, unless it ended or timed out since. */
  function Scheduled(evs: seq<Event>): set<nat> {
    if evs == [] then {}
    else
      match evs[|evs| - 1]
      case BeginStep(ids) => set id | id in ids
      case EndStep => {}
      case TimeOut => {}
      case _ => Scheduled(evs[..|evs| - 1])
  }

  lemma StepStateKept(r: Receiver, e: Event)
    requires Enabled(r, e) && !e.BeginStep? && !e.EndStep? && !e.TimeOut?
    ensures Apply(r, e).expected == r.expected && (Apply(r, e).inStep == if e.Crash? then false else r.inStep)
  {
    hide FirstReady;
  }

  /** Which requests may have the priority, from the events alone: those of the current
      step; a crash of the load loop leaves them expected until the next step begins. */
  lemma {:induction false} ExpectedExactly(states: seq<Receiver>, evs: seq<Event>, size: int, i: nat)
    requires IsRun(states, evs) && i < |states| && states[0] == Fresh(size)
    ensures states[i].expected == Scheduled(evs[..i]) && states[i].inStep == StepUnderWay(evs[..i])
  {
    if i > 0 {
      ExpectedExactly(states, evs, size, i - 1);
      assert evs[..i][..i - 1] == evs[..i - 1] && evs[..i][i - 1] == evs[i - 1];
      if !evs[i - 1].BeginStep? && !evs[i - 1].EndStep? && !evs[i - 1].TimeOut? { StepStateKept(states[i - 1], evs[i - 1]); }
    }
  }

  /** The listener's answers in every run, in bytes: a payload is refused exactly when
      staged bytes leave no room for it and it cannot have the priority.  Anything that
      fits, and anything at all when nothing is staged, is admitted without the priority. */
  lemma AdmissionExactly(states: seq<Receiver>, evs: seq<Event>, size: int, i: nat, item: Item, oom: bool)
    requires IsRun(states, evs) && i < |evs| && states[0] == Fresh(size) && evs[i] == Offer(item, oom)
    ensures var r, r', ack := states[i], states[i + 1], Reply(states[i], item, oom);
      var staged, room := Total(r.Held()), if size < 1 then 1 else size;
      var over := staged > 0 && staged + item.bytes > room;
      && (ack == AckRetry <==> over && !(item.id in r.expected && r.priority.None?))
      && (ack == AckOom <==> oom && ack != AckRetry)
      && (ack == AckOk ==>
            && r'.completions == r.completions + [item] && r'.admitted == r.admitted + [item]
            && r'.reserved == staged + item.bytes && r'.priority == if over then Some(item.id) else r.priority)
      && (ack == AckRetry ==> r' == r)
      && (ack == AckOom ==> r'.Held() == r.Held() && r'.admitted == r.admitted && r'.reserved == staged)
  {
    hide Total;
    HeldAtFirst(size);
    CreditAccounting(states, evs, i);
    CreditAccounting(states, evs, i + 1);
    CapacityKept(states, evs, i);
  }

  lemma HeldAtFirst(size: int)
    ensures Accounted(Fresh(size))
  {
    assert Fresh(size).Held() == [];
  }

  lemma {:induction false} CapacityKept(states: seq<Receiver>, evs: seq<Event>, i: nat)
    requires IsRun(states, evs) && i < |states|
    ensures states[i].capacity == states[0].capacity
  {
    if i > 0 {
      CapacityKept(states, evs, i - 1);
      SameCapacity(states[i - 1], evs[i - 1]);
    }
  }

  lemma SameCapacity(r: Receiver, e: Event)
    requires Enabled(r, e)
    ensures Apply(r, e).capacity == r.capacity
  {
    hide FirstReady;
  }

  // ----- Held payloads as a multiset -----

  ghost function Bag(r: Receiver): multiset<Item> {
    multiset(r.completions) + multiset(r.received) + multiset(r.buffered) + multiset(r.Worked())
  }

  lemma BagWithout(s: seq<Item>, k: nat)
    requires k < |s|
    ensures multiset(s) == multiset(Without(s, k)) + multiset{s[k]}
  {
    assert s == s[..k] + [s[k]] + s[k + 1..];
  }

  lemma OfferBag(r: Receiver, item: Item)
    requires Admits(r, item)
    ensures Bag(OfferStep(r, item, false)) == Bag(r) + multiset{item}
    ensures Bag(OfferStep(r, item, true)) == Bag(r)
  {
  }

  lemma CompleteBag(r: Receiver, ok: bool)
    requires r.completions != []
    ensures Bag(CompleteStep(r, true)) == Bag(r)
    ensures Bag(CompleteStep(r, false)) + multiset{r.completions[0]} == Bag(r)
  {
    assert r.completions == [r.completions[0]] + r.completions[1..];
  }

  lemma ConsumeBag(r: Receiver)
    requires Enabled(r, Consume)
    ensures Bag(ConsumeStep(r)) == Bag(r)
  {
    BagWithout(r.buffered, RetryIndex(r.buffered, r.pending[FirstReady(r.pending, r.buffered)]));
  }

  lemma ReleaseBag(r: Receiver)
    requires r.working.Some?
    ensures Bag(ReleaseStep(r)) + multiset{r.working.value} == Bag(r)
  {
  }

  // ----- Bound -----

  /** One outstanding payload per id, each of a positive size up to `largest`. */
  ghost predicate Polite(bag: multiset<Item>, largest: nat) {
    && (forall x, y :: x in bag && y in bag && x.id == y.id ==> x == y)
    && (forall x :: x in bag ==> bag[x] == 1 && 0 < x.bytes <= largest)
  }

  function Limit(r: Receiver, largest: nat): nat {
    if r.capacity < largest then largest else r.capacity
  }

  /** Without the payload that holds the priority, the normal limit is kept. */
  ghost predicate Bounded(r: Receiver, largest: nat) {
    && (r.priority.None? ==> r.reserved <= Limit(r, largest))
    && (r.priority.Some? ==> exists x :: x in Bag(r) && r.priority.value == x.id && r.reserved - x.bytes <= Limit(r, largest))
  }

  ghost predicate PoliteEvent(r: Receiver, e: Event, largest: nat) {
    e.Offer? ==> 0 < e.item.bytes <= largest && forall x :: x in Bag(r) ==> x.id != e.item.id
  }

  lemma OfferBounded(r: Receiver, item: Item, oom: bool, largest: nat)
    requires Accounted(r) && Polite(Bag(r), largest) && Bounded(r, largest)
    requires PoliteEvent(r, Offer(item, oom), largest)
    ensures Polite(Bag(OfferStep(r, item, oom)), largest) && Bounded(OfferStep(r, item, oom), largest)
  {
    hide Bag, Total;
    if Admits(r, item) {
      OfferBag(r, item);
      var r' := OfferStep(r, item, oom);
      if !oom && r'.priority.Some? && !Granted(r, item) {
        var x :| x in Bag(r) && r.priority.value == x.id && r.reserved - x.bytes <= Limit(r, largest);
        assert x in Bag(r');
      }
      if !oom && Granted(r, item) { assert item in Bag(r'); }
    }
  }

  /** Releasing any held payload keeps the bound; releasing the priority holder clears the priority. */
  lemma ReleasedBounded(r: Receiver, x: Item, r': Receiver, largest: nat)
    requires Polite(Bag(r), largest) && Bounded(r, largest)
    requires Bag(r') + multiset{x} == Bag(r) && r'.capacity == r.capacity && r'.reserved == r.reserved - x.bytes
    requires r'.priority == if r.priority == Some(x.id) then None else r.priority
    ensures Polite(Bag(r'), largest) && Bounded(r', largest)
  {
    hide Bag;
    assert forall y :: y in Bag(r') ==> y in Bag(r) && Bag(r')[y] <= Bag(r)[y];
    assert x in Bag(r);
    if r.priority.Some? {
      var y :| y in Bag(r) && r.priority.value == y.id && r.reserved - y.bytes <= Limit(r, largest);
      if y.id != x.id { assert y in Bag(r'); }
    }
  }

  lemma CompleteBounded(r: Receiver, largest: nat)
    requires Accounted(r) && Polite(Bag(r), largest) && Bounded(r, largest) && r.completions != []
    ensures var r' := CompleteStep(r, false); Polite(Bag(r'), largest) && Bounded(r', largest)
  {
    hide Total, Bag;
    CompleteAccounted(r, false);
    CompleteBag(r, false);
    var x := r.completions[0];
    assert x in Bag(r);
    ReleasedBounded(r, x, CompleteStep(r, false), largest);
  }

  lemma ReleaseBounded(r: Receiver, largest: nat)
    requires Accounted(r) && Polite(Bag(r), largest) && Bounded(r, largest) && r.working.Some?
    ensures var r' := ReleaseStep(r); Polite(Bag(r'), largest) && Bounded(r', largest)
  {
    hide Total, Bag;
    ReleaseAccounted(r);
    ReleaseBag(r);
    var x := r.working.value;
    assert x in Bag(r);
    ReleasedBounded(r, x, ReleaseStep(r), largest);
  }

  /** The events that neither admit nor release a payload. */
  lemma KeepsBag(r: Receiver, e: Event)
    requires Enabled(r, e) && !e.Offer? && e != Complete(false) && !e.Release? && !e.Crash?
    ensures var r' := Apply(r, e);
      Bag(r') == Bag(r) && r'.reserved == r.reserved && r'.priority == r.priority && r'.capacity == r.capacity
  {
    match e
    case Complete(ok) => CompleteBag(r, ok);
    case Consume => ConsumeBag(r);
    case Drain =>
    case BeginStep(_) =>
    case TimeOut =>
    case EndStep =>
  }

  ghost predicate Sound(r: Receiver, largest: nat) {
    Accounted(r) && Polite(Bag(r), largest) && Bounded(r, largest)
  }

  lemma KeptSound(r: Receiver, r': Receiver, largest: nat)
    requires Polite(Bag(r), largest) && Bounded(r, largest)
    requires Bag(r') == Bag(r) && r'.reserved == r.reserved && r'.priority == r.priority && r'.capacity == r.capacity
    ensures Polite(Bag(r'), largest) && Bounded(r', largest)
  {
    hide Bag, Polite;
  }

  lemma SameBag(r: Receiver, r': Receiver)
    requires r' == r.(inStep := r'.inStep, pending := r'.pending)
    ensures Bag(r') == Bag(r)
  {
  }

  lemma BoundedStep(r: Receiver, e: Event, largest: nat)
    requires Sound(r, largest) && Enabled(r, e) && PoliteEvent(r, e, largest)
    ensures Sound(Apply(r, e), largest) && Apply(r, e).capacity == r.capacity
  {
    hide Total, Polite, PoliteEvent, Bag, Accounted, Bounded;
    AccountedStep(r, e);
    if !e.Offer? && e != Complete(false) && !e.Release? && !e.Crash? {
      hide Apply;
      KeepsBag(r, e);
      KeptSound(r, Apply(r, e), largest);
    } else if e.Offer? {
      OfferBounded(r, e.item, e.oom, largest);
    } else if e.Complete? {
      CompleteBounded(r, largest);
    } else {
      ReleaseBounded(r, largest);
      SameBag(ReleaseStep(r), Apply(r, e));
      KeptSound(ReleaseStep(r), Apply(r, e), largest);
    }
  }

  ghost predicate PoliteRun(states: seq<Receiver>, evs: seq<Event>, largest: nat) {
    IsRun(states, evs) && forall i :: 0 <= i < |evs| ==> PoliteEvent(states[i], evs[i], largest)
  }

  lemma {:induction false} BoundedRun(states: seq<Receiver>, evs: seq<Event>, largest: nat, i: nat)
    requires PoliteRun(states, evs, largest) && i < |states| && Sound(states[0], largest)
    ensures Sound(states[i], largest) && states[i].capacity == states[0].capacity
  {
    hide Sound, PoliteEvent, Apply, Enabled;
    if i > 0 {
      BoundedRun(states, evs, largest, i - 1);
      BoundedStep(states[i - 1], evs[i - 1], largest);
    }
  }

  /** Staging never exceeds the budget, or one oversize payload, by more than the one
      held payload of the request that holds the priority. */
  lemma StagingIsBounded(states: seq<Receiver>, evs: seq<Event>, largest: nat, size: int, i: nat)
    requires PoliteRun(states, evs, largest) && i < |states| && states[0] == Fresh(size)
    ensures var r, limit := states[i], Limit(Fresh(size), largest);
      if r.priority.None? then r.reserved <= limit
      else exists x :: x in Bag(r) && r.priority.value == x.id && x.bytes <= largest && r.reserved <= limit + x.bytes
  {
    hide PoliteEvent, Accounted;
    SoundAtFirst(size, largest);
    hide Sound, Bag;
    BoundedRun(states, evs, largest, i);
    SoundBound(states[i], largest);
  }

  lemma SoundAtFirst(size: int, largest: nat)
    ensures Sound(Fresh(size), largest)
  {
    assert Fresh(size).Held() == [];
  }

  lemma SoundBound(r: Receiver, largest: nat)
    requires Sound(r, largest)
    ensures if r.priority.None? then r.reserved <= Limit(r, largest)
            else exists x :: x in Bag(r) && r.priority.value == x.id && x.bytes <= largest && r.reserved <= Limit(r, largest) + x.bytes
  {
    hide Accounted, Bag, Limit;
    if r.priority.Some? {
      var x :| x in Bag(r) && r.priority.value == x.id && r.reserved - x.bytes <= Limit(r, largest);
      assert x.bytes <= largest;
    }
  }

  // ----- Progress of a decode step -----

  ghost predicate Distinct(s: seq<nat>) {
    forall i, j :: 0 <= i < j < |s| ==> s[i] != s[j]
  }

  /** Every transfer id is sent once, with a positive size, and scheduled once; nothing fails. */
  ghost predicate OrderlyEvent(r: Receiver, e: Event) {
    match e
    case BeginStep(ids) => Distinct(ids) && forall id :: id in ids ==> !HasId(r.consumed, id)
    case Offer(item, oom) => !oom && item.bytes > 0 && !HasId(r.admitted, item.id)
    case Complete(ok) => ok
    case Crash => false
    case TimeOut => false
    case Drain => true
    case Consume => true
    case Release => true
    case EndStep => true
  }

  ghost predicate AdmittedOnce(r: Receiver) {
    && (forall x :: x in Bag(r) ==> HasId(r.admitted, x.id) && x.bytes > 0)
    && (forall x, y :: x in Bag(r) && y in Bag(r) && x.id == y.id ==> x == y && Bag(r)[x] == 1)
    && (forall id :: HasId(r.consumed, id) ==> HasId(r.admitted, id))
  }

  ghost predicate StepShape(r: Receiver) {
    && (!r.inStep ==> r.pending == [] && r.working.None? && r.expected == {})
    && Distinct(r.pending)
    && (forall id :: id in r.pending ==> id in r.expected && !HasId(r.consumed, id))
    && (forall id :: id in r.expected ==> id in r.pending || HasId(r.consumed, id))
  }

  /** The request still waits for its payload or is being loaded. */
  predicate Unfinished(r: Receiver, id: nat) {
    id in r.pending || (r.working.Some? && r.working.value.id == id)
  }

  ghost predicate HoldsId(r: Receiver, id: nat) {
    exists x :: x in Bag(r) && x.id == id
  }

  /** The priority holder is an admitted, unfinished request of the current step. */
  ghost predicate PriorityUseful(r: Receiver) {
    r.priority.Some? ==> r.inStep && Unfinished(r, r.priority.value) && HoldsId(r, r.priority.value)
  }

  lemma HasIdAppend(s: seq<Item>, x: Item, id: nat)
    ensures HasId(s + [x], id) <==> HasId(s, id) || x.id == id
  {
    if HasId(s, id) {
      var i :| 0 <= i < |s| && s[i].id == id;
      assert (s + [x])[i].id == id;
    }
    if x.id == id { assert (s + [x])[|s|].id == id; }
    if HasId(s + [x], id) {
      var i :| 0 <= i < |s + [x]| && (s + [x])[i].id == id;
      assert i < |s| ==> s[i].id == id;
    }
  }

  lemma OfferOrderly(r: Receiver, item: Item)
    requires AdmittedOnce(r) && OrderlyEvent(r, Offer(item, false))
    ensures AdmittedOnce(OfferStep(r, item, false))
  {
    hide Bag, HasId;
    if Admits(r, item) {
      OfferBag(r, item);
      forall id ensures HasId(r.admitted + [item], id) <==> HasId(r.admitted, id) || item.id == id {
        HasIdAppend(r.admitted, item, id);
      }
    }
  }

  lemma OfferShape(r: Receiver, item: Item)
    requires AdmittedOnce(r) && StepShape(r) && PriorityUseful(r) && OrderlyEvent(r, Offer(item, false))
    ensures var r' := OfferStep(r, item, false); StepShape(r') && PriorityUseful(r')
  {
    hide Bag, HasId, Distinct;
    if Admits(r, item) {
      OfferBag(r, item);
      var r' := OfferStep(r, item, false);
      if Granted(r, item) {
        assert item in Bag(r');
      } else if r.priority.Some? {
        var x :| x in Bag(r) && x.id == r.priority.value;
        assert x in Bag(r');
      }
    }
  }

  lemma ConsumeOrderly(r: Receiver)
    requires AdmittedOnce(r) && StepShape(r) && PriorityUseful(r) && Enabled(r, Consume)
    ensures AdmittedOnce(ConsumeStep(r)) && PriorityUseful(ConsumeStep(r))
  {
    hide Bag, HasId, Distinct;
    ConsumeBag(r);
    var k := FirstReady(r.pending, r.buffered);
    ReadyItem(r.buffered, r.pending[k]);
    var x := r.buffered[RetryIndex(r.buffered, r.pending[k])];
    assert x in Bag(r) by { InBag(r, x); }
    forall id ensures HasId(r.consumed + [x], id) <==> HasId(r.consumed, id) || x.id == id {
      HasIdAppend(r.consumed, x, id);
    }
    forall id | id in r.pending && id != r.pending[k] ensures id in Without(r.pending, k) {
      KeptElsewhere(r.pending, k, id);
    }
  }

  lemma ReadyItem(s: seq<Item>, id: nat)
    requires HasId(s, id)
    ensures RetryIndex(s, id) < |s|
  {
  }

  lemma InBag(r: Receiver, x: Item)
    requires x in r.buffered
    ensures x in Bag(r)
  {
    assert x in multiset(r.buffered);
  }

  lemma KeptElsewhere(s: seq<nat>, k: nat, x: nat)
    requires k < |s| && x in s && x != s[k]
    ensures x in Without(s, k)
  {
    var i :| 0 <= i < |s| && s[i] == x;
    if i < k { assert Without(s, k)[i] == x; } else { assert Without(s, k)[i - 1] == x; }
  }

  lemma WithoutDistinct(s: seq<nat>, k: nat)
    requires k < |s| && Distinct(s)
    ensures Distinct(Without(s, k)) && s[k] !in Without(s, k)
    ensures forall x :: x in Without(s, k) ==> x in s
  {
  }

  lemma ConsumeShape(r: Receiver)
    requires StepShape(r) && Enabled(r, Consume)
    ensures StepShape(ConsumeStep(r))
  {
    hide HasId, Distinct;
    var k := FirstReady(r.pending, r.buffered);
    ReadyItem(r.buffered, r.pending[k]);
    var x := r.buffered[RetryIndex(r.buffered, r.pending[k])];
    WithoutDistinct(r.pending, k);
    forall id ensures HasId(r.consumed + [x], id) <==> HasId(r.consumed, id) || x.id == id {
      HasIdAppend(r.consumed, x, id);
    }
    forall id | id in r.pending && id != r.pending[k] ensures id in Without(r.pending, k) {
      KeptElsewhere(r.pending, k, id);
    }
  }

  lemma ReleaseOrderly(r: Receiver)
    requires AdmittedOnce(r) && StepShape(r) && PriorityUseful(r) && Enabled(r, Release)
    ensures var r' := ReleaseStep(r); AdmittedOnce(r') && StepShape(r') && PriorityUseful(r')
  {
    hide Bag, HasId, Distinct;
    ReleaseBag(r);
    var r' := ReleaseStep(r);
    var x := r.working.value;
    assert x in Bag(r);
    assert forall y :: y in Bag(r') ==> y in Bag(r) && Bag(r')[y] <= Bag(r)[y];
    if r.priority.Some? && r.priority.value != x.id {
      var y :| y in Bag(r) && y.id == r.priority.value;
      assert y in Bag(r');
    }
  }

  ghost predicate Orderly(r: Receiver) {
    AdmittedOnce(r) && StepShape(r) && PriorityUseful(r)
  }

  lemma OrderlyStep(r: Receiver, e: Event)
    requires Orderly(r) && Enabled(r, e) && OrderlyEvent(r, e)
    ensures Orderly(Apply(r, e))
  {
    hide AdmittedOnce, StepShape, PriorityUseful, HasId, Distinct;
    match e
    case Offer(item, oom) => OfferOrderly(r, item); OfferShape(r, item);
    case Consume => ConsumeOrderly(r); ConsumeShape(r);
    case Release => ReleaseOrderly(r);
    case Complete(_) => QuietOrderly(r, e);
    case Drain => QuietOrderly(r, e);
    case BeginStep(_) => QuietOrderly(r, e);
    case EndStep => QuietOrderly(r, e);
  }

  lemma QuietOrderly(r: Receiver, e: Event)
    requires Orderly(r) && Enabled(r, e) && OrderlyEvent(r, e)
    requires e.Complete? || e.Drain? || e.BeginStep? || e.EndStep?
    ensures Orderly(Apply(r, e))
  {
    hide Bag, HasId, Distinct;
    KeepsBag(r, e);
  }

  ghost predicate OrderlyRun(states: seq<Receiver>, evs: seq<Event>) {
    IsRun(states, evs) && forall i :: 0 <= i < |evs| ==> OrderlyEvent(states[i], evs[i])
  }

  lemma {:induction false} OrderlyAlways(states: seq<Receiver>, evs: seq<Event>, i: nat)
    requires OrderlyRun(states, evs) && i < |states| && Orderly(states[0])
    ensures Orderly(states[i])
  {
    if i > 0 {
      OrderlyAlways(states, evs, i - 1);
      hide Orderly, OrderlyEvent;
      OrderlyStep(states[i - 1], evs[i - 1]);
    }
  }

  /** A decode step is never starved by payloads of other steps.  Inside a step the
      priority is free or with an unfinished request of the step whose payload is
      held; and when no waiting request of an idle step has its payload admitted,
      the next offer for any waiting request is admitted, whatever is reserved. */
  lemma StepIsNotStarved(states: seq<Receiver>, evs: seq<Event>, size: int, i: nat)
    requires OrderlyRun(states, evs) && i < |states| && states[0] == Fresh(size)
    ensures var r := states[i];
      && (r.priority.Some? ==> r.inStep && Unfinished(r, r.priority.value) && HoldsId(r, r.priority.value))
      && (r.working.None? && (forall id :: id in r.pending ==> !HoldsId(r, id)) ==>
            forall item: Item :: item.id in r.pending ==> Admits(r, item))
  {
    OrderlyAlways(states, evs, i);
  }

  /** A held payload of a waiting request reaches the load loop: its receive can
      complete, or the loop can take it once it drains. */
  lemma HeldCanAdvance(r: Receiver, id: nat)
    requires r.inStep && r.working.None? && id in r.pending && HoldsId(r, id)
    ensures Enabled(r, Complete(true)) || Enabled(Apply(r, Drain), Consume)
  {
    var x :| x in Bag(r) && x.id == id;
    if r.completions == [] {
      var s := r.buffered + r.received;
      assert x in multiset(s);
      var i :| 0 <= i < |s| && s[i] == x;
      assert HasId(s, id);
    }
  }

  // ----- Order -----

  /** Receives complete in admission order, the good ones are published, and each
      id's publications reach the load loop in order. */
  ghost predicate InOrder(r: Receiver) {
    && r.completed + r.completions == r.admitted
    && |r.goods| == |r.completed| && r.published == Select(r.completed, r.goods)
    && forall id :: Of(r.consumed, id) + Of(r.buffered, id) + Of(r.received, id) == Of(r.published, id)
  }

  lemma OfWithoutFirst(s: seq<Item>, id: nat, other: nat)
    requires RetryIndex(s, id) < |s|
    ensures var k := RetryIndex(s, id); Of(s, other) == Of([s[k]], other) + Of(Without(s, k), other)
  {
    hide Of;
    var k := RetryIndex(s, id);
    var a, c := s[..k], s[k + 1..];
    assert s == a + ([s[k]] + c) && Without(s, k) == a + c;
    OfAppend(a, [s[k]] + c, other);
    OfAppend([s[k]], c, other);
    OfAppend(a, c, other);
    if other == id {
      OfNone(a, id);
    } else {
      OfOther(s[k], other);
    }
  }

  lemma CompleteOrder(r: Receiver, ok: bool)
    requires InOrder(r) && r.completions != []
    ensures InOrder(CompleteStep(r, ok))
  {
    hide Of;
    var x := r.completions[0];
    SelectAppend(r.completed, r.goods, x, ok);
    assert r.completed + r.completions == r.completed + [x] + r.completions[1..];
    forall id ensures Of(r.received + [x], id) == Of(r.received, id) + Of([x], id)
                   && Of(r.published + [x], id) == Of(r.published, id) + Of([x], id) {
      OfAppend(r.received, [x], id);
      OfAppend(r.published, [x], id);
    }
  }

  lemma ConsumeOrder(r: Receiver)
    requires InOrder(r) && Enabled(r, Consume)
    ensures InOrder(ConsumeStep(r))
  {
    hide Of, HasId;
    var id := r.pending[FirstReady(r.pending, r.buffered)];
    ReadyItem(r.buffered, id);
    var j := RetryIndex(r.buffered, id);
    var x := r.buffered[j];
    forall o ensures Of(r.consumed + [x], o) == Of(r.consumed, o) + Of([x], o)
                  && Of(r.buffered, o) == Of([x], o) + Of(Without(r.buffered, j), o) {
      OfAppend(r.consumed, [x], o);
      OfWithoutFirst(r.buffered, id, o);
    }
  }

  lemma DrainOrder(r: Receiver)
    requires InOrder(r)
    ensures InOrder(Apply(r, Drain))
  {
    hide Of;
    forall id ensures Of(r.buffered + r.received, id) == Of(r.buffered, id) + Of(r.received, id) && Of([], id) == [] {
      OfAppend(r.buffered, r.received, id);
      OfEmpty(id);
    }
  }

  lemma OrderStep(r: Receiver, e: Event)
    requires InOrder(r) && Enabled(r, e)
    ensures InOrder(Apply(r, e))
  {
    hide Of, Select, HasId;
    match e
    case Complete(ok) => CompleteOrder(r, ok);
    case Consume => ConsumeOrder(r);
    case Drain => DrainOrder(r);
    case Offer(item, _) => assert r.completed + (r.completions + [item]) == r.admitted + [item];
    case Release =>
    case Crash =>
    case BeginStep(_) =>
    case TimeOut =>
    case EndStep =>
  }

  // ----- The transport's own fields -----

  class NcclReceiver {
    var recvCapacityBytes: nat
    var recvReservedBytes: int
    var expectedRequests: set<nat>
    var priorityRequest: Option<nat>
    var recvCompletions: seq<Item>
    var received: seq<Item>
    var workerReceivedKv: seq<Item>
    var loading: Option<Item>
    var inStep: bool
    var pending: seq<nat>
    ghost var admitted: seq<Item>
    ghost var completed: seq<Item>
    ghost var goods: seq<bool>
    ghost var published: seq<Item>
    ghost var consumed: seq<Item>

    ghost function View(): Receiver
      reads this
    {
      Receiver(recvCapacityBytes, recvReservedBytes, expectedRequests, priorityRequest,
               recvCompletions, received, workerReceivedKv, loading, inStep, pending,
               admitted, completed, goods, published, consumed)
    }

    constructor (recvBufferSize: int)
      ensures View() == Fresh(recvBufferSize)
    {
      recvCapacityBytes := if recvBufferSize < 1 then 1 else recvBufferSize;
      recvReservedBytes, expectedRequests, priorityRequest := 0, {}, None;
      recvCompletions, received, workerReceivedKv, loading, inStep, pending := [], [], [], None, false, [];
      admitted, completed, goods, published, consumed := [], [], [], [], [];
    }

    /** `_reserve_received` as the listener calls it, without waiting. */
    method ReserveReceived(item: Item) returns (admits: bool)
      modifies this`recvReservedBytes, this`priorityRequest
      ensures admits == Admits(old(View()), item)
      ensures View() == if admits then Reserved(old(View()), item) else old(View())
      ensures old(recvReservedBytes) == 0 || old(recvReservedBytes) + item.bytes <= recvCapacityBytes ==>
        admits && priorityRequest == old(priorityRequest)
      ensures !admits <==>
        && old(recvReservedBytes) > 0 && old(recvReservedBytes) + item.bytes > recvCapacityBytes
        && !(item.id in expectedRequests && old(priorityRequest).None?)
      ensures admits ==> recvReservedBytes == old(recvReservedBytes) + item.bytes
    {
      if recvReservedBytes > 0 && recvReservedBytes + item.bytes > recvCapacityBytes {
        if item.id in expectedRequests && priorityRequest.None? {
          priorityRequest := Some(item.id);
        } else {
          return false;
        }
      }
      recvReservedBytes := recvReservedBytes + item.bytes;
      return true;
    }

    method ReleaseReceived(item: Item)
      modifies this`recvReservedBytes, this`priorityRequest
      ensures View() == Released(old(View()), item)
    {
      if item.bytes > 0 {
        recvReservedBytes := if recvReservedBytes - item.bytes < 0 then 0 else recvReservedBytes - item.bytes;
        if priorityRequest == Some(item.id) { priorityRequest := None; }
      }
    }

    /** The PUT and PUT_BUNDLE branches of `_listen_loop`. */
    method Put(item: Item, oom: bool) returns (ack: Ack)
      modifies this
      ensures View() == Apply(old(View()), Offer(item, oom))
      ensures ack == Reply(old(View()), item, oom)
      ensures ack == AckRetry <==>
        && old(recvReservedBytes) > 0 && old(recvReservedBytes) + item.bytes > old(recvCapacityBytes)
        && !(item.id in old(expectedRequests) && old(priorityRequest).None?)
      ensures ack == AckOk ==> recvCompletions == old(recvCompletions) + [item] && recvReservedBytes == old(recvReservedBytes) + item.bytes
    {
      var admits := ReserveReceived(item);
      if !admits { return AckRetry; }
      if oom {
        ReleaseReceived(item);
        return AckOom;
      }
      recvCompletions := recvCompletions + [item];
      admitted := admitted + [item];
      return AckOk;
    }

    /** One turn of `_recv_completion_loop`. */
    method CompleteNext(ok: bool)
      requires recvCompletions != []
      modifies this
      ensures View() == Apply(old(View()), Complete(ok))
    {
      hide Released;
      var item := recvCompletions[0];
      recvCompletions := recvCompletions[1..];
      completed, goods := completed + [item], goods + [ok];
      ghost var taken := View();
      if ok {
        Publish(item);
      } else {
        ReleaseReceived(item);
        assert View() == Released(taken, item);
      }
    }

    method Publish(item: Item)
      modifies this`received, this`published
      ensures received == old(received) + [item] && published == old(published) + [item]
    {
      received := received + [item];
      published := published + [item];
    }

    method BeginLoad(ids: seq<nat>)
      requires !inStep
      modifies this
      ensures View() == Apply(old(View()), BeginStep(ids))
    {
      inStep, pending := true, ids;
      expectedRequests := set id | id in ids;
    }

    /** The first pending request with a payload, in the order of the step's requests. */
    method FindReady() returns (k: nat)
      ensures k == FirstReady(pending, workerReceivedKv)
    {
      k := 0;
      while k < |pending| && !HasId(workerReceivedKv, pending[k])
        invariant 0 <= k <= |pending|
        invariant forall i :: 0 <= i < k ==> !HasId(workerReceivedKv, pending[i])
      {
        k := k + 1;
      }
    }

    /** `drain_received` and the copy into the worker's own deques. */
    method DrainReceived()
      modifies this
      ensures View() == Apply(old(View()), Drain)
    {
      workerReceivedKv, received := workerReceivedKv + received, [];
    }

    /** One turn of the loop of `start_load_kv`. */
    method TakeReady() returns (taken: bool)
      requires inStep && loading.None?
      modifies this
      ensures var drained := Apply(old(View()), Drain);
        && taken == Enabled(drained, Consume)
        && View() == if taken then Apply(drained, Consume) else drained
    {
      hide HasId;
      DrainReceived();
      ghost var drained := View();
      var k := FindReady();
      assert k == FirstReady(drained.pending, drained.buffered);
      hide FirstReady;
      taken := k < |pending|;
      if taken {
        ReadyItem(workerReceivedKv, pending[k]);
        var j := RetryIndex(workerReceivedKv, pending[k]);
        var item := workerReceivedKv[j];
        loading, consumed := Some(item), consumed + [item];
        workerReceivedKv, pending := Without(workerReceivedKv, j), Without(pending, k);
      }
    }

    method FinishLoad()
      requires inStep && loading.Some?
      modifies this
      ensures View() == Apply(old(View()), Release)
    {
      var item := loading.value;
      loading := None;
      ReleaseReceived(item);
    }

    method EndLoad()
      requires inStep && loading.None? && pending == []
      modifies this
      ensures View() == Apply(old(View()), EndStep)
    {
      inStep, expectedRequests := false, {};
    }
  }
}
