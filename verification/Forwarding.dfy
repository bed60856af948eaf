/** From the engine's channel to the validators' streams, as a state machine.

    A lane is one channel with its subscriptions; bundles and packet batches each have
    one. One thread serves both lanes in turn, so the free interleaving allowed here
    includes everything it does. Bundles and upstream packets carry no deadline, which is
    an expiry of zero. */
module Forwarding {
  import opened Common

  const CHANNEL_CAPACITY: nat := 100
  const STREAM_CAPACITY: nat := 1000

  type Producer = string

  /** History: what a producer took in, when, and with which expiry window. */
  datatype Receipt<T> = Receipt(payload: T, at: nat, expiry: nat) {
    /** The window as a deadline of the engine's own clock; zero means none. */
    function Deadline(): Option<nat> { if expiry == 0 then None else Some(at + expiry) }
  }

  /** What travels through the channel; `number` counts the producer's earlier items. */
  datatype Item<T> = Item(producer: Producer, number: nat, payload: T, deadline: Option<nat>) {
    predicate Expired(now: nat) { deadline.Some? && now > deadline.value }
  }

  datatype Stream<T> = Stream(sent: seq<Item<T>>, read: nat, open: bool) {
    predicate Full() { |sent| >= read + STREAM_CAPACITY }
  }

  /** `since` is history: how many items had passed when the subscription began. */
  datatype Subscription<T> = Subscription(identity: string, stream: Stream<T>, since: nat)

  /** Only leaders get traffic, if there is a leader tracker. */
  predicate ShouldForward(upcoming: Option<set<string>>, identity: string) {
    upcoming.None? || identity in upcoming.value
  }

  /** `try_send`, for a subscriber that may be skipped: closed and full streams stay. */
  function Offered<T>(sub: Subscription<T>, item: Item<T>, upcoming: Option<set<string>>): Subscription<T> {
    if ShouldForward(upcoming, sub.identity) && sub.stream.open && !sub.stream.Full()
    then sub.(stream := sub.stream.(sent := sub.stream.sent + [item]))
    else sub
  }

  predicate Fails<T>(sub: Subscription<T>, upcoming: Option<set<string>>) {
    ShouldForward(upcoming, sub.identity) && !sub.stream.open
  }

  /** Where the forwarder thread stands. The subscriptions are locked while it offers. */
  datatype Phase<T> =
    | Idle
    | Offering(item: Item<T>, left: set<string>, failed: set<string>)
    | Removing(failed: set<string>)
  {
    predicate Waits(u: string) { Offering? && u in left }
    function Failed(): set<string> { if Idle? then {} else failed }
  }

  datatype Lane<T> = Lane(
    now: nat, upcoming: Option<set<string>>,
    pending: map<Producer, Item<T>>, queue: seq<Item<T>>,
    subs: map<string, Subscription<T>>, phase: Phase<T>, expired: nat, forwarded: nat,
    // History: receipts of each producer, everything dequeued, everything that passed the
    // expiry check, and the subscription ids handed out.
    made: map<Producer, seq<Receipt<T>>>, dequeued: seq<Item<T>>, passed: seq<Item<T>>, uuids: set<string>)

  function Init<T>(upcoming: Option<set<string>>): Lane<T> {
    Lane(0, upcoming, map[], [], map[], Idle, 0, 0, map[], [], [], {})
  }

  datatype Step<T> =
    | Wait(delay: nat)
    | Elect(leaders: set<string>)
    | Receive(producer: Producer, payload: T, expiry: nat)
    | Enqueue(producer: Producer)
    | Dequeue
    | Offer(uuid: string)
    | EndOffers
    | Remove(uuid: string)
    | EndRemoving
    | Subscribe(uuid: string, identity: string)
    | ReadOne(uuid: string)
    | Close(uuid: string)

  predicate Enabled<T>(s: Lane<T>, step: Step<T>) {
    match step
    case Wait(_) => true
    case Elect(_) => s.upcoming.Some?
    case Receive(p, _, _) => p !in s.pending
    case Enqueue(p) => p in s.pending && |s.queue| < CHANNEL_CAPACITY
    case Dequeue => s.phase.Idle? && s.queue != []
    case Offer(u) => s.phase.Waits(u) && u in s.subs
    case EndOffers => s.phase.Offering? && s.phase.left == {}
    case Remove(u) => s.phase.Removing? && u in s.phase.failed
    case EndRemoving => s.phase.Removing? && s.phase.failed == {}
    case Subscribe(u, _) => u !in s.uuids && !s.phase.Offering?
    case ReadOne(u) => u in s.subs && s.subs[u].stream.read < |s.subs[u].stream.sent|
    case Close(u) => u in s.subs
  }

  function MadeBy<T>(made: map<Producer, seq<Receipt<T>>>, p: Producer): seq<Receipt<T>> {
    if p in made then made[p] else []
  }

  function ReceiveStep<T>(s: Lane<T>, p: Producer, payload: T, expiry: nat): Lane<T> {
    var r := Receipt(payload, s.now, expiry);
    var before := MadeBy(s.made, p);
    s.(made := s.made[p := before + [r]], pending := s.pending[p := ItemOf(p, |before|, r)])
  }

  function ItemOf<T>(p: Producer, n: nat, r: Receipt<T>): Item<T> {
    Item(p, n, r.payload, r.Deadline())
  }

  function EnqueueStep<T>(s: Lane<T>, p: Producer): Lane<T>
    requires p in s.pending
  {
    s.(queue := s.queue + [s.pending[p]], pending := s.pending - {p})
  }

  function DropStep<T>(s: Lane<T>): Lane<T>
    requires s.queue != []
  {
    s.(queue := s.queue[1..], dequeued := s.dequeued + [s.queue[0]], expired := s.expired + 1)
  }

  function PassStep<T>(s: Lane<T>): Lane<T>
    requires s.queue != []
  {
    s.(queue := s.queue[1..], dequeued := s.dequeued + [s.queue[0]], forwarded := s.forwarded + 1,
       passed := s.passed + [s.queue[0]], phase := Offering(s.queue[0], s.subs.Keys, {}))
  }

  /** An expired item is dropped; any other is about to be offered to every subscriber. */
  function DequeueStep<T>(s: Lane<T>): Lane<T>
    requires s.queue != []
  {
    if s.queue[0].Expired(s.now) then DropStep(s) else PassStep(s)
  }

  function OfferStep<T>(s: Lane<T>, u: string): Lane<T>
    requires s.phase.Offering? && u in s.subs
  {
    s.(subs := s.subs[u := Offered(s.subs[u], s.phase.item, s.upcoming)],
       phase := Offering(s.phase.item, s.phase.left - {u},
                         if Fails(s.subs[u], s.upcoming) then s.phase.failed + {u} else s.phase.failed))
  }

  function RemoveStep<T>(s: Lane<T>, u: string): Lane<T>
    requires s.phase.Removing?
  {
    s.(subs := s.subs - {u}, phase := Removing(s.phase.failed - {u}))
  }

  function SubscribeStep<T>(s: Lane<T>, u: string, identity: string): Lane<T> {
    s.(subs := s.subs[u := Subscription(identity, Stream([], 0, true), |s.passed|)], uuids := s.uuids + {u})
  }

  function WithStream<T>(s: Lane<T>, u: string, c: Stream<T>): Lane<T>
    requires u in s.subs
  {
    s.(subs := s.subs[u := s.subs[u].(stream := c)])
  }

  function ReadStep<T>(s: Lane<T>, u: string): Lane<T>
    requires u in s.subs
  {
    WithStream(s, u, s.subs[u].stream.(read := s.subs[u].stream.read + 1))
  }

  function CloseStep<T>(s: Lane<T>, u: string): Lane<T>
    requires u in s.subs
  {
    WithStream(s, u, s.subs[u].stream.(open := false))
  }

  function Next<T>(s: Lane<T>, step: Step<T>): Lane<T>
    requires Enabled(s, step)
  {
    match step
    case Wait(d) => s.(now := s.now + d)
    case Elect(leaders) => s.(upcoming := Some(leaders))
    case Receive(p, payload, expiry) => ReceiveStep(s, p, payload, expiry)
    case Enqueue(p) => EnqueueStep(s, p)
    case Dequeue => DequeueStep(s)
    case Offer(u) => OfferStep(s, u)
    case EndOffers => s.(phase := Removing(s.phase.failed))
    case Remove(u) => RemoveStep(s, u)
    case EndRemoving => s.(phase := Idle)
    case Subscribe(u, identity) => SubscribeStep(s, u, identity)
    case ReadOne(u) => ReadStep(s, u)
    case Close(u) => CloseStep(s, u)
  }

  datatype Trace<!T> = Trace(states: seq<Lane<T>>, steps: seq<Step<T>>) {
    ghost predicate IsRun() {
      && |states| == |steps| + 1
      && states[0] == Init(states[0].upcoming)
      && forall i :: 0 <= i < |steps| ==> Enabled(states[i], steps[i]) && states[i + 1] == Next(states[i], steps[i])
    }
  }

  // ----- what every reachable state satisfies -----

  function FromTest<T>(p: Producer): Item<T> -> bool { (x: Item<T>) => x.producer == p }

  /** The items of one producer, in order. */
  function From<T>(items: seq<Item<T>>, p: Producer): seq<Item<T>> { Filter(items, FromTest(p)) }

  /** What a producer has sent or is about to send, by its receipts. */
  function ItemsOf<T>(made: map<Producer, seq<Receipt<T>>>, p: Producer): seq<Item<T>> {
    seq(|MadeBy(made, p)|, k requires 0 <= k < |MadeBy(made, p)| => ItemOf(p, k, MadeBy(made, p)[k]))
  }

  function PendingOf<T>(pending: map<Producer, Item<T>>, p: Producer): seq<Item<T>> {
    if p in pending then [pending[p]] else []
  }

  /** The channel carries each producer's items in order, none lost and none repeated. */
  ghost predicate ChannelOk<T(!new)>(
    made: map<Producer, seq<Receipt<T>>>, channel: seq<Item<T>>, pending: map<Producer, Item<T>>)
  {
    && (forall p :: From(channel, p) + PendingOf(pending, p) == ItemsOf(made, p))
    && (forall p :: p in pending ==> pending[p].producer == p)
  }

  ghost predicate Counted<T>(s: Lane<T>) {
    && Subsequence(s.passed, s.dequeued)
    && s.forwarded == |s.passed| && |s.dequeued| == s.expired + s.forwarded
  }

  /** The stream shows an in-order part of what passed since the subscription began. */
  ghost predicate SubOk<T>(sub: Subscription<T>, passed: seq<Item<T>>) {
    sub.since <= |passed| && Subsequence(sub.stream.sent, passed[sub.since..])
  }

  /** What has been offered to a subscriber that may still be waiting for the last item. */
  function Reached<T>(passed: seq<Item<T>>, waits: bool): seq<Item<T>> {
    if waits && passed != [] then passed[..|passed| - 1] else passed
  }

  ghost predicate SubsOk<T>(
    subs: map<string, Subscription<T>>, uuids: set<string>, passed: seq<Item<T>>, phase: Phase<T>)
  {
    forall u :: u in subs ==> u in uuids && SubOk(subs[u], Reached(passed, phase.Waits(u)))
  }

  ghost predicate PhaseOk<T>(
    subs: map<string, Subscription<T>>, uuids: set<string>, passed: seq<Item<T>>, phase: Phase<T>)
  {
    && (phase.Offering? ==> phase.left <= subs.Keys && passed != [] && passed[|passed| - 1] == phase.item)
    && (forall u :: u in phase.Failed() ==> u in uuids && (u in subs ==> !subs[u].stream.open))
  }

  ghost predicate Inv<T(!new)>(s: Lane<T>) {
    && ChannelOk(s.made, s.dequeued + s.queue, s.pending)
    && Counted(s)
    && SubsOk(s.subs, s.uuids, s.passed, s.phase)
    && PhaseOk(s.subs, s.uuids, s.passed, s.phase)
  }

  // ----- every step keeps it -----

  lemma FromAppend<T>(items: seq<Item<T>>, x: Item<T>, p: Producer)
    ensures From(items + [x], p) == if x.producer == p then From(items, p) + [x] else From(items, p)
  {
    FilterSnoc(items, x, FromTest(p));
  }

  lemma ReceiveChannel<T(!new)>(s: Lane<T>, p: Producer, payload: T, expiry: nat, channel: seq<Item<T>>)
    requires ChannelOk(s.made, channel, s.pending) && p !in s.pending
    ensures var s' := ReceiveStep(s, p, payload, expiry); ChannelOk(s'.made, channel, s'.pending)
  {
    var s' := ReceiveStep(s, p, payload, expiry);
    forall q ensures From(channel, q) + PendingOf(s'.pending, q) == ItemsOf(s'.made, q) {
      assert From(channel, q) + PendingOf(s.pending, q) == ItemsOf(s.made, q);
      if q == p {
        assert ItemsOf(s'.made, p) == ItemsOf(s.made, p) + [s'.pending[p]];
      }
    }
  }

  lemma EnqueueChannel<T(!new)>(s: Lane<T>, p: Producer, channel: seq<Item<T>>)
    requires ChannelOk(s.made, channel, s.pending) && p in s.pending
    ensures ChannelOk(s.made, channel + [s.pending[p]], s.pending - {p})
  {
    forall q ensures From(channel + [s.pending[p]], q) + PendingOf(s.pending - {p}, q) == ItemsOf(s.made, q) {
      FromAppend(channel, s.pending[p], q);
      assert From(channel, q) + PendingOf(s.pending, q) == ItemsOf(s.made, q);
    }
  }

  lemma KeepsEnqueue<T(!new)>(s: Lane<T>, p: Producer)
    requires Inv(s) && p in s.pending
    ensures Inv(EnqueueStep(s, p))
  {
    EnqueueChannel(s, p, s.dequeued + s.queue);
    assert s.dequeued + (s.queue + [s.pending[p]]) == s.dequeued + s.queue + [s.pending[p]];
  }

  lemma KeepsReceive<T(!new)>(s: Lane<T>, p: Producer, payload: T, expiry: nat)
    requires Inv(s) && p !in s.pending
    ensures Inv(ReceiveStep(s, p, payload, expiry))
  {
    ReceiveChannel(s, p, payload, expiry, s.dequeued + s.queue);
  }

  lemma PassSubs<T>(s: Lane<T>, item: Item<T>)
    requires SubsOk(s.subs, s.uuids, s.passed, s.phase) && s.phase.Idle?
    ensures SubsOk(s.subs, s.uuids, s.passed + [item], Offering(item, s.subs.Keys, {}))
  {
    var phase := Offering(item, s.subs.Keys, {});
    forall u | u in s.subs ensures SubOk(s.subs[u], Reached(s.passed + [item], phase.Waits(u))) {
      assert Reached(s.passed + [item], true) == s.passed == Reached(s.passed, false);
      assert SubOk(s.subs[u], Reached(s.passed, false));
    }
  }

  lemma QueueHead<T>(s: Lane<T>)
    requires s.queue != []
    ensures s.dequeued + [s.queue[0]] + s.queue[1..] == s.dequeued + s.queue
  {
  }

  lemma KeepsDrop<T(!new)>(s: Lane<T>)
    requires Inv(s) && s.queue != []
    ensures Inv(DropStep(s))
  {
    QueueHead(s);
    SubsequenceGrow(s.passed, s.dequeued, s.queue[0]);
  }

  lemma KeepsPass<T(!new)>(s: Lane<T>)
    requires Inv(s) && s.phase.Idle? && s.queue != []
    ensures Inv(PassStep(s))
  {
    QueueHead(s);
    SubsequenceGrow(s.passed, s.dequeued, s.queue[0]);
    PassSubs(s, s.queue[0]);
  }

  lemma OfferSub<T>(sub: Subscription<T>, passed: seq<Item<T>>, upcoming: Option<set<string>>)
    requires passed != [] && SubOk(sub, passed[..|passed| - 1])
    ensures SubOk(Offered(sub, passed[|passed| - 1], upcoming), passed)
  {
    var init, item := passed[..|passed| - 1], passed[|passed| - 1];
    assert passed[sub.since..] == init[sub.since..] + [item];
    SubsequenceGrow(sub.stream.sent, init[sub.since..], item);
  }

  lemma KeepsOffer<T(!new)>(s: Lane<T>, u: string)
    requires Inv(s) && s.phase.Waits(u) && u in s.subs
    ensures Inv(OfferStep(s, u))
  {
    OfferSub(s.subs[u], s.passed, s.upcoming);
    var s' := OfferStep(s, u);
    forall v | v in s'.subs ensures SubOk(s'.subs[v], Reached(s'.passed, s'.phase.Waits(v))) {
      assert SubOk(s.subs[v], Reached(s.passed, s.phase.Waits(v)));
    }
  }

  lemma KeepsEndOffers<T(!new)>(s: Lane<T>)
    requires Inv(s) && s.phase.Offering? && s.phase.left == {}
    ensures Inv(s.(phase := Removing(s.phase.failed)))
  {
    forall u | u in s.subs ensures SubOk(s.subs[u], Reached(s.passed, false)) {
      assert SubOk(s.subs[u], Reached(s.passed, s.phase.Waits(u)));
    }
  }

  lemma KeepsRemove<T(!new)>(s: Lane<T>, u: string)
    requires Inv(s) && s.phase.Removing?
    ensures Inv(RemoveStep(s, u))
  {
    var s' := RemoveStep(s, u);
    forall v | v in s'.subs ensures SubOk(s'.subs[v], Reached(s'.passed, s'.phase.Waits(v))) {
      assert SubOk(s.subs[v], Reached(s.passed, s.phase.Waits(v)));
    }
  }

  lemma KeepsEndRemoving<T(!new)>(s: Lane<T>)
    requires Inv(s) && s.phase.Removing?
    ensures Inv(s.(phase := Idle))
  {
    forall v | v in s.subs ensures SubOk(s.subs[v], Reached(s.passed, false)) {
      assert SubOk(s.subs[v], Reached(s.passed, s.phase.Waits(v)));
    }
  }

  lemma KeepsSubscribe<T(!new)>(s: Lane<T>, u: string, identity: string)
    requires Inv(s) && u !in s.uuids && !s.phase.Offering?
    ensures Inv(SubscribeStep(s, u, identity))
  {
    var s' := SubscribeStep(s, u, identity);
    forall v | v in s'.subs ensures SubOk(s'.subs[v], Reached(s'.passed, s'.phase.Waits(v))) {
      assert v != u ==> SubOk(s.subs[v], Reached(s.passed, s.phase.Waits(v)));
    }
  }

  lemma KeepsStream<T(!new)>(s: Lane<T>, u: string, c: Stream<T>)
    requires Inv(s) && u in s.subs && c.sent == s.subs[u].stream.sent && (c.open ==> s.subs[u].stream.open)
    ensures Inv(WithStream(s, u, c))
  {
    var s' := WithStream(s, u, c);
    forall v | v in s'.subs ensures SubOk(s'.subs[v], Reached(s'.passed, s'.phase.Waits(v))) {
      assert SubOk(s.subs[v], Reached(s.passed, s.phase.Waits(v)));
    }
  }

  lemma KeepsRead<T(!new)>(s: Lane<T>, u: string)
    requires Inv(s) && u in s.subs
    ensures Inv(ReadStep(s, u))
  {
    var c := s.subs[u].stream;
    var c' := c.(read := c.read + 1);
    assert ReadStep(s, u) == WithStream(s, u, c');
    KeepsStream(s, u, c');
  }

  lemma KeepsClose<T(!new)>(s: Lane<T>, u: string)
    requires Inv(s) && u in s.subs
    ensures Inv(CloseStep(s, u))
  {
    var c' := s.subs[u].stream.(open := false);
    assert CloseStep(s, u) == WithStream(s, u, c');
    KeepsStream(s, u, c');
  }

  predicate OfSubscriber<T>(step: Step<T>) {
    step.Subscribe? || step.ReadOne? || step.Close?
  }

  lemma SubscriberStepInv<T(!new)>(s: Lane<T>, step: Step<T>)
    requires Inv(s) && Enabled(s, step) && OfSubscriber(step)
    ensures Inv(Next(s, step))
  {
    match step
    case Subscribe(u, identity) => KeepsSubscribe(s, u, identity);
    case ReadOne(u) => KeepsRead(s, u);
    case Close(u) => KeepsClose(s, u);
  }

  predicate OfForwarder<T>(step: Step<T>) {
    step.Dequeue? || step.Offer? || step.EndOffers? || step.Remove? || step.EndRemoving?
  }

  lemma ForwarderStepInv<T(!new)>(s: Lane<T>, step: Step<T>)
    requires Inv(s) && Enabled(s, step) && OfForwarder(step)
    ensures Inv(Next(s, step))
  {
    match step
    case Dequeue =>
      if s.queue[0].Expired(s.now) {
        KeepsDrop(s);
      } else {
        KeepsPass(s);
      }
    case Offer(u) => KeepsOffer(s, u);
    case EndOffers => KeepsEndOffers(s);
    case Remove(u) => KeepsRemove(s, u);
    case EndRemoving => KeepsEndRemoving(s);
  }

  /** Every step of every party keeps the invariant. */
  lemma StepInv<T(!new)>(s: Lane<T>, step: Step<T>)
    requires Inv(s) && Enabled(s, step)
    ensures Inv(Next(s, step))
  {
    if OfSubscriber(step) {
      SubscriberStepInv(s, step);
    } else if OfForwarder(step) {
      ForwarderStepInv(s, step);
    } else if step.Receive? {
      KeepsReceive(s, step.producer, step.payload, step.expiry);
    } else if step.Enqueue? {
      KeepsEnqueue(s, step.producer);
    }
  }

  lemma InitChannel<T(!new)>()
    ensures ChannelOk<T>(map[], [], map[])
  {
    forall p ensures From<T>([], p) + PendingOf<T>(map[], p) == ItemsOf<T>(map[], p) {
      assert ItemsOf<T>(map[], p) == [];
    }
  }

  lemma InitInv<T(!new)>(upcoming: Option<set<string>>)
    ensures Inv(Init<T>(upcoming))
  {
    InitChannel<T>();
    var s := Init<T>(upcoming);
    assert s.dequeued + s.queue == [];
  }

  lemma {:induction false} RunInv<T(!new)>(t: Trace<T>, i: nat)
    requires t.IsRun() && i < |t.states|
    ensures Inv(t.states[i])
  {
    if i == 0 {
      InitInv<T>(t.states[0].upcoming);
    } else {
      RunInv(t, i - 1);
      StepInv(t.states[i - 1], t.steps[i - 1]);
    }
  }
}
