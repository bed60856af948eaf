/** What a searcher who keeps reading gets: a result stream that stays open and is never
    full when something arrives misses nothing. */
module PipelineStreams {
  import opened Common
  import opened Bundles
  import opened HubSpec
  import opened AuctionSpec
  import opened TrackerSpec
  import opened Pipeline
  import opened PipelineFrames

  // ----- one delivery -----

  lemma {:induction false} RetainAppend(a: seq<Channel>, b: seq<Channel>, m: Message)
    ensures Retain(a + b, m) == Retain(a, m) + Retain(b, m)
  {
    if a == [] {
      assert a + b == b;
    } else {
      RetainAppend(a[1..], b, m);
      assert (a + b)[1..] == a[1..] + b;
    }
  }

  /** The place of the stream at `p` once the closed ones are gone. */
  function PlaceAfter(senders: seq<Channel>, p: nat): nat
    requires p <= |senders|
  {
    |Filter(senders[..p], OpenTest())|
  }

  lemma RetainAt(senders: seq<Channel>, p: nat, m: Message)
    requires p < |senders| && senders[p].open
    ensures PlaceAfter(senders, p) < |Retain(senders, m)|
    ensures Retain(senders, m)[PlaceAfter(senders, p)] == senders[p].Offer(m)
  {
    var before, after := senders[..p], senders[p + 1..];
    AroundIndex(senders, p);
    RetainAppend(before + [senders[p]], after, m);
    RetainAppend(before, [senders[p]], m);
    RetainOffersOnce(before, m);
    assert Retain([senders[p]], m) == [senders[p].Offer(m)] + Retain([senders[p]][1..], m);
  }

  // ----- publishing is the two steps -----

  /** On the hub, resolving and then delivering is `publish`; a publication that finds no
      owner is over once it is resolved. */
  lemma PublishIsTwoSteps(s: State, who: Who)
    requires OutboxOf(s, who).flight.None? && OutboxOf(s, who).todo != []
    ensures var p, s1 := OutboxOf(s, who).todo[0], ResolveStep(s, who);
      && (OutboxOf(s1, who).flight.Some? <==> p.uuid in s.hub.owners)
      && (OutboxOf(s1, who).flight.Some? ==> DeliverStep(s1, who).hub == Publish(s.hub, p))
      && (OutboxOf(s1, who).flight.None? ==> s1.hub == Publish(s.hub, p))
  {
  }

  // ----- one step -----

  /** The message that a step delivers to `owner`, if it delivers one. */
  function Delivery(s: State, step: Step, owner: string): Option<Message> {
    if step.DeliverNext? && OutboxOf(s, step.who).flight.Some? && OutboxOf(s, step.who).flight.value.owner == owner then
      var p := OutboxOf(s, step.who).flight.value.pub;
      Some(Message(p.uuid, p.kind))
    else None
  }

  function MessagesOf(o: Option<Message>): seq<Message> { if o.Some? then [o.value] else [] }

  function Streams(s: State, owner: string): seq<Channel> { StreamsOf(s.hub.subscribers, owner) }

  /** Where the stream at `p` stands after a step. */
  function NextPlace(s: State, step: Step, owner: string, p: nat): nat
    requires p < |Streams(s, owner)|
  {
    if Delivery(s, step, owner).Some? then PlaceAfter(Streams(s, owner), p) else p
  }

  /** The stream at `p` goes on at `p'` with `more` appended. */
  ghost predicate GoesOn(before: seq<Channel>, p: nat, after: seq<Channel>, p': nat, more: seq<Message>) {
    p < |before| && p' < |after| && after[p'].sent == before[p].sent + more
  }

  lemma SameStreams(before: seq<Channel>, p: nat)
    requires p < |before|
    ensures GoesOn(before, p, before, p, [])
  {
    assert before[p].sent + [] == before[p].sent;
  }

  lemma DeliverGoesOn(s: State, who: Who, owner: string, p: nat)
    requires OutboxOf(s, who).flight.Some? && p < |Streams(s, owner)|
    requires Streams(s, owner)[p].open && !Streams(s, owner)[p].Full()
    ensures GoesOn(Streams(s, owner), p, Streams(DeliverStep(s, who), owner), NextPlace(s, DeliverNext(who), owner, p),
                   MessagesOf(Delivery(s, DeliverNext(who), owner)))
  {
    var f := OutboxOf(s, who).flight.value;
    var m := Message(f.pub.uuid, f.pub.kind);
    DeliveryRouting(s.hub, f.owner, m, owner);
    if f.owner == owner {
      RetainAt(Streams(s, owner), p, m);
    } else {
      SameStreams(Streams(s, owner), p);
    }
  }

  lemma DeliverElsewhere(s: State, who: Who, owner: string)
    requires OutboxOf(s, who).flight.Some? && Delivery(s, DeliverNext(who), owner).None?
    ensures Streams(DeliverStep(s, who), owner) == Streams(s, owner)
  {
    var f := OutboxOf(s, who).flight.value;
    DeliveryRouting(s.hub, f.owner, Message(f.pub.uuid, f.pub.kind), owner);
  }

  lemma SubscribeGoesOn(s: State, added: string, owner: string, p: nat)
    requires p < |Streams(s, owner)|
    ensures GoesOn(Streams(s, owner), p, StreamsOf(AddSubscriber(s.hub, added).subscribers, owner), p, [])
  {
    SameStreams(Streams(s, owner), p);
  }

  lemma UpdateGoesOn(s: State, o: string, i: nat, c: Channel, owner: string, p: nat)
    requires o in s.hub.subscribers && i < |s.hub.subscribers[o]| && c.sent == s.hub.subscribers[o][i].sent
    requires p < |Streams(s, owner)|
    ensures GoesOn(Streams(s, owner), p, Streams(WithStream(s, o, i, c), owner), p, [])
  {
    SameStreams(Streams(s, owner), p);
  }

  lemma ReadGoesOn(s: State, o: string, i: nat, owner: string, p: nat)
    requires o in s.hub.subscribers && i < |s.hub.subscribers[o]| && p < |Streams(s, owner)|
    ensures GoesOn(Streams(s, owner), p, Streams(ReadStep(s, o, i), owner), p, [])
  {
    var c := s.hub.subscribers[o][i];
    UpdateGoesOn(s, o, i, c.(read := c.read + 1), owner, p);
  }

  lemma CloseGoesOn(s: State, o: string, i: nat, owner: string, p: nat)
    requires o in s.hub.subscribers && i < |s.hub.subscribers[o]| && p < |Streams(s, owner)|
    ensures GoesOn(Streams(s, owner), p, Streams(CloseStep(s, o, i), owner), p, [])
  {
    UpdateGoesOn(s, o, i, s.hub.subscribers[o][i].(open := false), owner, p);
  }

  lemma ResolveLeavesStreams(s: State, who: Who, owner: string)
    requires OutboxOf(s, who).todo != []
    ensures Streams(ResolveStep(s, who), owner) == Streams(s, owner)
  {
  }

  lemma HubGoesOn(P: Params, s: State, step: Step, owner: string, p: nat)
    requires Enabled(s, step) && OfHub(step) && p < |Streams(s, owner)|
    requires Delivery(s, step, owner).Some? ==> Streams(s, owner)[p].open && !Streams(s, owner)[p].Full()
    ensures GoesOn(Streams(s, owner), p, Streams(Next(P, s, step), owner), NextPlace(s, step, owner, p),
                   MessagesOf(Delivery(s, step, owner)))
  {
    match step
    case ResolveNext(who) =>
      ResolveLeavesStreams(s, who, owner);
      SameStreams(Streams(s, owner), p);
    case DeliverNext(who) =>
      if Delivery(s, step, owner).Some? {
        DeliverGoesOn(s, who, owner, p);
      } else {
        DeliverElsewhere(s, who, owner);
        SameStreams(Streams(s, owner), p);
      }
    case PruneOwners => SameStreams(Streams(s, owner), p);
    case Subscribe(added) => SubscribeGoesOn(s, added, owner, p);
    case ReadOne(o, i) => ReadGoesOn(s, o, i, owner, p);
    case CloseStream(o, i) => CloseGoesOn(s, o, i, owner, p);
  }

  lemma OthersLeaveStreams(P: Params, s: State, step: Step)
    requires Enabled(s, step) && !OfHub(step)
    ensures Next(P, s, step).hub.subscribers == s.hub.subscribers
  {
    match step
    case BeginSend(u, owner, packets) => assert BeginSendStep(s, u, owner, packets).hub == s.hub;
    case RegisterCall(u) => assert RegisterStep(s, u).hub.subscribers == s.hub.subscribers;
    case CountCall(u) => assert CountStep(s, u).hub == s.hub;
    case PushCall(u) => assert PushStep(P, s, u).hub == s.hub;
    case SetSim(outcome) => assert SetSimStep(s, outcome).hub == s.hub;
    case StartAuction => assert StartAuctionStep(P, s).hub == s.hub;
    case Drain => assert DrainStep(P, s).hub == s.hub;
    case Hand => assert HandStep(P, s).hub == s.hub;
    case Answer(reply) => assert AnswerStep(P, s, reply).hub == s.hub;
    case _ =>
  }

  lemma StepGoesOn(P: Params, s: State, step: Step, owner: string, p: nat)
    requires Enabled(s, step) && p < |Streams(s, owner)|
    requires Delivery(s, step, owner).Some? ==> Streams(s, owner)[p].open && !Streams(s, owner)[p].Full()
    ensures GoesOn(Streams(s, owner), p, Streams(Next(P, s, step), owner), NextPlace(s, step, owner, p),
                   MessagesOf(Delivery(s, step, owner)))
  {
    if OfHub(step) {
      HubGoesOn(P, s, step, owner, p);
    } else {
      OthersLeaveStreams(P, s, step);
      SameStreams(Streams(s, owner), p);
    }
  }

  // ----- a whole run -----

  /** Everything delivered to `owner` by the steps from `a` up to `i`, in order. */
  function DeliveredTo(states: seq<State>, steps: seq<Step>, owner: string, a: nat, i: nat): seq<Message>
    requires i <= |steps| < |states|
  {
    if i <= a then []
    else DeliveredTo(states, steps, owner, a, i - 1) + MessagesOf(Delivery(states[i - 1], steps[i - 1], owner))
  }

  /** If a message for its owner comes up, the stream at `p` is open and not full. */
  ghost predicate Ready(s: State, step: Step, owner: string, p: nat) {
    && p < |Streams(s, owner)|
    && (Delivery(s, step, owner).Some? ==> Streams(s, owner)[p].open && !Streams(s, owner)[p].Full())
  }

  /** One stream followed from state `a` on: `places[n]` is where it stands in state
      `a + n`, and it is ready for every step in between. */
  ghost predicate Followed(states: seq<State>, steps: seq<Step>, owner: string, a: nat, places: seq<nat>) {
    && places != [] && a + |places| <= |states| && |states| == |steps| + 1
    && places[0] < |Streams(states[a], owner)|
    && forall n :: 0 <= n < |places| - 1 ==>
         && Ready(states[a + n], steps[a + n], owner, places[n])
         && places[n + 1] == NextPlace(states[a + n], steps[a + n], owner, places[n])
  }

  /** Step `j` does to every stream of `owner` that is ready for it what it should. */
  ghost predicate Serves(states: seq<State>, steps: seq<Step>, owner: string, j: nat) {
    j < |steps| < |states| ==>
      forall p: nat :: Ready(states[j], steps[j], owner, p) ==>
        GoesOn(Streams(states[j], owner), p, Streams(states[j + 1], owner),
               NextPlace(states[j], steps[j], owner, p), MessagesOf(Delivery(states[j], steps[j], owner)))
  }

  lemma StepServes(P: Params, states: seq<State>, steps: seq<Step>, owner: string, j: nat)
    requires IsRun(P, states, steps)
    ensures Serves(states, steps, owner, j)
  {
    if j < |steps| {
      forall p: nat | Ready(states[j], steps[j], owner, p)
        ensures GoesOn(Streams(states[j], owner), p, Streams(states[j + 1], owner),
                       NextPlace(states[j], steps[j], owner, p), MessagesOf(Delivery(states[j], steps[j], owner)))
      {
        StepGoesOn(P, states[j], steps[j], owner, p);
      }
    }
  }

  /** The followed stream has gained exactly what was delivered. */
  ghost predicate GainsAll(states: seq<State>, steps: seq<Step>, owner: string, a: nat, p: nat, i: nat, q: nat)
    requires a <= i <= |steps| < |states|
  {
    GoesOn(Streams(states[a], owner), p, Streams(states[i], owner), q, DeliveredTo(states, steps, owner, a, i))
  }

  lemma GainsNext(states: seq<State>, steps: seq<Step>, owner: string, a: nat, p: nat, i: nat, q: nat)
    requires a <= i < |steps| < |states| && GainsAll(states, steps, owner, a, p, i, q)
    requires Ready(states[i], steps[i], owner, q)
    requires GoesOn(Streams(states[i], owner), q, Streams(states[i + 1], owner),
                    NextPlace(states[i], steps[i], owner, q), MessagesOf(Delivery(states[i], steps[i], owner)))
    ensures GainsAll(states, steps, owner, a, p, i + 1, NextPlace(states[i], steps[i], owner, q))
  {
    var before, more := DeliveredTo(states, steps, owner, a, i), MessagesOf(Delivery(states[i], steps[i], owner));
    var start := Streams(states[a], owner)[p].sent;
    assert start + before + more == start + (before + more);
  }

  lemma {:induction false} FollowedGains(
    states: seq<State>, steps: seq<Step>, owner: string, a: nat, places: seq<nat>, n: nat)
    requires Followed(states, steps, owner, a, places) && n < |places|
    requires forall j: nat :: Serves(states, steps, owner, j)
    ensures GainsAll(states, steps, owner, a, places[0], a + n, places[n])
  {
    if n == 0 {
      SameStreams(Streams(states[a], owner), places[0]);
    } else {
      var k: nat := n - 1;
      FollowedGains(states, steps, owner, a, places, k);
      assert Ready(states[a + k], steps[a + k], owner, places[k]);
      assert places[k + 1] == NextPlace(states[a + k], steps[a + k], owner, places[k]);
      assert Serves(states, steps, owner, a + k);
      GainsNext(states, steps, owner, a, places[0], a + k, places[k]);
    }
  }

  lemma SubscribeAdds(s: State, owner: string)
    ensures var s' := s.(hub := AddSubscriber(s.hub, owner));
      Streams(s', owner) == Streams(s, owner) + [Channel([], 0, true)]
  {
  }

  /** In every run: a stream that is open and not full whenever something arrives for its
      searcher holds exactly what was delivered to the searcher since it was added, in
      order. */
  lemma NothingIsMissed(
    P: Params, states: seq<State>, steps: seq<Step>, owner: string, a: nat, places: seq<nat>, n: nat)
    requires IsRun(P, states, steps) && a < |steps| && steps[a] == Subscribe(owner)
    requires Followed(states, steps, owner, a + 1, places) && places[0] == |Streams(states[a], owner)| && n < |places|
    ensures places[n] < |Streams(states[a + 1 + n], owner)|
    ensures Streams(states[a + 1 + n], owner)[places[n]].sent == DeliveredTo(states, steps, owner, a + 1, a + 1 + n)
  {
    forall j: nat ensures Serves(states, steps, owner, j) {
      StepServes(P, states, steps, owner, j);
    }
    FollowedGains(states, steps, owner, a + 1, places, n);
    SubscribeAdds(states[a], owner);
    assert states[a + 1] == Next(P, states[a], steps[a]);
    NewIsEmpty(Streams(states[a], owner), Streams(states[a + 1], owner), places[0],
               Streams(states[a + 1 + n], owner), places[n], DeliveredTo(states, steps, owner, a + 1, a + 1 + n));
  }

  lemma NewIsEmpty(
    earlier: seq<Channel>, start: seq<Channel>, p: nat, now: seq<Channel>, q: nat, more: seq<Message>)
    requires start == earlier + [Channel([], 0, true)] && p == |earlier| && GoesOn(start, p, now, q, more)
    ensures now[q].sent == more
  {
    assert [] + more == more;
  }
}
