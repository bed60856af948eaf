/** Every step of the pipeline preserves the invariant. */
module PipelineProof {
  import opened Common
  import opened Bundles
  import opened HubSpec
  import opened StableSort
  import opened AuctionSpec
  import opened AuctionTheorems
  import opened TrackerSpec
  import opened Pipeline
  import opened PipelineInvariant

  // ----- stages and lists -----

  ghost predicate NotIn(todo: seq<Publication>, u: string) {
    forall p :: p in todo ==> p.uuid != u
  }

  /** How a component's list changes when `u` moves to stage `y`: it joins at the back or
      leaves from the front. */
  ghost predicate Shifts(l: seq<string>, l': seq<string>, stage: map<string, Stage>, x: Stage, u: string, y: Stage) {
    if x == y then !IsAt(stage, u, x) && l' == l + [u]
    else if IsAt(stage, u, x) then l != [] && l[0] == u && l' == l[1..]
    else l' == l
  }

  ghost predicate ShiftsSet(s: set<string>, s': set<string>, x: Stage, u: string, y: Stage) {
    s' == if x == y then s + {u} else s - {u}
  }

  lemma HoldsShift(l: seq<string>, l': seq<string>, stage: map<string, Stage>, x: Stage, u: string, y: Stage)
    requires Holds(l, stage, x) && Shifts(l, l', stage, x, u, y)
    ensures Holds(l', stage[u := y], x)
  {
    var stage' := stage[u := y];
    assert forall v :: v != u ==> (IsAt(stage', v, x) <==> IsAt(stage, v, x));
    assert u in l <==> IsAt(stage, u, x);
    if x != y && IsAt(stage, u, x) {
      assert l == [l[0]] + l[1..];
      assert forall j :: 0 < j < |l| ==> l[j] == l[1..][j - 1];
    }
  }

  lemma HoldsSetShift(s: set<string>, s': set<string>, stage: map<string, Stage>, x: Stage, u: string, y: Stage)
    requires HoldsSet(s, stage, x) && ShiftsSet(s, s', x, u, y)
    ensures HoldsSet(s', stage[u := y], x)
  {
  }

  /** One uuid moves to stage `y`; every component follows suit. */
  lemma PlacesMove(
    stage: map<string, Stage>, u: string, y: Stage,
    c: set<string>, n: set<string>, b: seq<string>, r: seq<string>, w: seq<string>, t: seq<string>,
    c': set<string>, n': set<string>, b': seq<string>, r': seq<string>, w': seq<string>, t': seq<string>)
    requires PlacesOk(stage, c, n, b, r, w, t)
    requires ShiftsSet(c, c', Calling, u, y) && ShiftsSet(n, n', Counted, u, y)
    requires Shifts(b, b', stage, Buffered, u, y) && Shifts(r, r', stage, Ranking, u, y)
    requires Shifts(w, w', stage, Winning, u, y) && Shifts(t, t', stage, Tracking, u, y)
    ensures PlacesOk(stage[u := y], c', n', b', r', w', t')
  {
    HoldsSetShift(c, c', stage, Calling, u, y);
    HoldsSetShift(n, n', stage, Counted, u, y);
    HoldsShift(b, b', stage, Buffered, u, y);
    HoldsShift(r, r', stage, Ranking, u, y);
    HoldsShift(w, w', stage, Winning, u, y);
    HoldsShift(t, t', stage, Tracking, u, y);
  }

  lemma UuidsAppend(s: seq<PendingBundle>, b: PendingBundle)
    ensures Uuids(s + [b]) == Uuids(s) + [b.bundle.uuid]
  {
  }

  lemma UuidsTail(s: seq<PendingBundle>)
    requires s != []
    ensures Uuids(s)[1..] == Uuids(s[1..]) && Uuids(s)[0] == s[0].bundle.uuid
  {
  }

  lemma UuidsMember(s: seq<PendingBundle>, u: string)
    ensures u in Uuids(s) <==> exists b :: b in s && b.bundle.uuid == u
  {
    if u in Uuids(s) {
      var i :| 0 <= i < |Uuids(s)| && Uuids(s)[i] == u;
      assert s[i] in s;
    }
    if b :| b in s && b.bundle.uuid == u {
      var i :| 0 <= i < |s| && s[i] == b;
      assert Uuids(s)[i] == u;
    }
  }

  lemma SameBundle(buffer: seq<PendingBundle>, b: PendingBundle, c: PendingBundle)
    requires Distinct(Uuids(buffer)) && b in buffer && c in buffer && b.bundle.uuid == c.bundle.uuid
    ensures b == c
  {
    var i :| 0 <= i < |buffer| && buffer[i] == b;
    var k :| 0 <= k < |buffer| && buffer[k] == c;
    assert Uuids(buffer)[i] == Uuids(buffer)[k];
  }

  lemma TrackedMember(s: seq<Tracked>, u: string)
    ensures u in TrackedIds(s) <==> exists t :: t in s && t.uuid == u
  {
    if u in TrackedIds(s) {
      var i :| 0 <= i < |TrackedIds(s)| && TrackedIds(s)[i] == u;
      assert s[i] in s;
    }
    if t :| t in s && t.uuid == u {
      var i :| 0 <= i < |s| && s[i] == t;
      assert TrackedIds(s)[i] == u;
    }
  }

  lemma BundleIdsAppend(s: seq<BundleUuid>, b: BundleUuid)
    ensures BundleIds(s + [b]) == BundleIds(s) + [b.uuid]
  {
  }

  // ----- histories -----

  /** A uuid that is in no list gets a stage and a history that allow each other. */
  lemma IntentsPut(
    stage: map<string, Stage>, intent: History, buffer: seq<PendingBundle>, tracked: seq<Tracked>,
    u: string, y: Stage, w: seq<ResultKind>)
    requires IntentsOk(stage, intent, buffer, tracked) && StageAllows(y, w)
    requires forall b :: b in buffer ==> b.bundle.uuid != u
    requires forall t :: t in tracked ==> t.uuid != u
    ensures IntentsOk(stage[u := y], intent[u := w], buffer, tracked)
  {
  }

  lemma ForwardedPut(
    forwarded: seq<string>, stage: map<string, Stage>, intent: History,
    u: string, y: Stage, w: seq<ResultKind>)
    requires ForwardedOk(forwarded, stage, intent) && u !in forwarded
    ensures ForwardedOk(forwarded, stage[u := y], intent[u := w])
  {
  }

  lemma NotForwarded(forwarded: seq<string>, stage: map<string, Stage>, intent: History, u: string)
    requires ForwardedOk(forwarded, stage, intent)
    requires u !in stage || (stage[u] != Tracking && stage[u] != Done)
    ensures u !in forwarded
  {
  }

  lemma NotBuffered(buffer: seq<PendingBundle>, stage: map<string, Stage>, u: string)
    requires Holds(Uuids(buffer), stage, Buffered) && !IsAt(stage, u, Buffered)
    ensures forall b :: b in buffer ==> b.bundle.uuid != u
  {
    UuidsMember(buffer, u);
  }

  lemma NotTracked(tracked: seq<Tracked>, stage: map<string, Stage>, u: string)
    requires Holds(TrackedIds(tracked), stage, Tracking) && !IsAt(stage, u, Tracking)
    ensures forall t :: t in tracked ==> t.uuid != u
  {
    TrackedMember(tracked, u);
  }

  /** A uuid outside the buffer and the tracker changes stage and history. */
  lemma IntentsMove(s: State, s': State, u: string, y: Stage, w: seq<ResultKind>)
    requires Places(s) && Intents(s) && StageAllows(y, w)
    requires !IsAt(s.stage, u, Buffered) && !IsAt(s.stage, u, Tracking)
    requires s'.stage == s.stage[u := y] && s'.intent == s.intent[u := w]
    requires s'.buffer == s.buffer && s'.tracked == s.tracked
    ensures Intents(s')
  {
    NotBuffered(s.buffer, s.stage, u);
    NotTracked(s.tracked, s.stage, u);
    IntentsPut(s.stage, s.intent, s.buffer, s.tracked, u, y, w);
  }

  /** A uuid that has not been forwarded changes stage and history. */
  lemma ForwardsMove(s: State, s': State, u: string, y: Stage, w: seq<ResultKind>)
    requires Forwards(s)
    requires u !in s.stage || (s.stage[u] != Tracking && s.stage[u] != Done)
    requires s'.stage == s.stage[u := y] && s'.intent == s.intent[u := w]
    requires s'.forwarded == s.forwarded && s'.tick.InSending() == s.tick.InSending()
    ensures Forwards(s')
  {
    NotForwarded(BundleIds(s.forwarded + s.tick.InSending()), s.stage, s.intent, u);
    ForwardedPut(BundleIds(s.forwarded + s.tick.InSending()), s.stage, s.intent, u, y, w);
  }

  /** Stages change, histories do not: publishing is unaffected as long as nothing that
      the tick task is publishing starts to be tracked. */
  lemma Restage(s: State, s': State)
    requires TickOut(s)
    requires s'.intent == s.intent && s'.tickOut == s.tickOut
    requires !s'.tick.Simulating? && !s'.tick.Draining? ==> s.tickOut.Idle()
    requires forall p :: s.tickOut.Active(p) ==> p.uuid in s'.stage && s'.stage[p.uuid] != Tracking
    ensures TickOut(s')
  {
  }

  // ----- searcher calls -----

  lemma BeginSendPlaces(s: State, u: string, owner: string, packets: Option<seq<Packet>>)
    requires Places(s) && u !in s.stage
    ensures Places(BeginSendStep(s, u, owner, packets))
  {
    var s' := BeginSendStep(s, u, owner, packets);
    assert u !in s.calls && u !in s.counted;
    PlacesMove(s.stage, u, if packets.None? then Done else Calling,
               s.calls.Keys, s.counted.Keys, Uuids(s.buffer), Uuids(s.tick.Rest()), BundleIds(s.tick.Won()),
               TrackedIds(s.tracked),
               s'.calls.Keys, s.counted.Keys, Uuids(s.buffer), Uuids(s.tick.Rest()), BundleIds(s.tick.Won()),
               TrackedIds(s.tracked));
  }

  lemma BeginSendIntents(s: State, u: string, owner: string, packets: Option<seq<Packet>>)
    requires Places(s) && Intents(s) && Forwards(s) && u !in s.stage
    ensures var s' := BeginSendStep(s, u, owner, packets); Intents(s') && Forwards(s')
  {
    var s' := BeginSendStep(s, u, owner, packets);
    var y := if packets.None? then Done else Calling;
    IntentsMove(s, s', u, y, []);
    ForwardsMove(s, s', u, y, []);
  }

  lemma BeginSendOutboxes(s: State, u: string, owner: string, packets: Option<seq<Packet>>)
    requires TickOut(s) && PollOut(s) && Flights(s)
    requires u !in s.stage && u !in s.intent && u !in s.log
    ensures var s' := BeginSendStep(s, u, owner, packets);
      TickOut(s') && PollOut(s') && Flights(s')
  {
    var s' := BeginSendStep(s, u, owner, packets);
    assert forall v :: Of(s'.intent, v) == Of(s.intent, v);
  }

  lemma BeginSendLogs(s: State, u: string, owner: string, packets: Option<seq<Packet>>)
    requires Logs(s) && u !in s.intent
    ensures Logs(BeginSendStep(s, u, owner, packets))
  {
  }

  lemma BeginSendCalls(s: State, u: string, owner: string, packets: Option<seq<Packet>>)
    requires Calls(s) && u !in s.reg && u !in s.hub.owners
    ensures Calls(BeginSendStep(s, u, owner, packets))
  {
  }

  /** A uuid nobody has heard of appears in no stream; giving it an empty history changes
      nothing there. */
  lemma BeginSendStreams(s: State, u: string, owner: string, packets: Option<seq<Packet>>)
    requires Streams(s) && u !in s.log
    ensures Streams(BeginSendStep(s, u, owner, packets))
  {
    assert forall v :: Offered(s.log[u := []], s.tickOut.flight, s.pollOut.flight, v)
                    == Offered(s.log, s.tickOut.flight, s.pollOut.flight, v);
  }

  /** What is not issued is not on record anywhere. */
  lemma UnissuedIsUnknown(s: State, u: string)
    requires Intents(s) && Logs(s) && u !in s.stage
    ensures u !in s.intent && u !in s.log && u !in s.reg && u !in s.hub.owners
  {
  }

  lemma KeepsBeginSend(s: State, u: string, owner: string, packets: Option<seq<Packet>>)
    requires Inv(s) && u !in s.stage
    ensures Inv(BeginSendStep(s, u, owner, packets))
  {
    UnissuedIsUnknown(s, u);
    BeginSendPlaces(s, u, owner, packets);
    BeginSendCalls(s, u, owner, packets);
    BeginSendIntents(s, u, owner, packets);
    BeginSendOutboxes(s, u, owner, packets);
    BeginSendLogs(s, u, owner, packets);
    BeginSendStreams(s, u, owner, packets);
  }

  lemma RegisterFacts(s: State, u: string)
    requires Places(s) && Intents(s) && Calls(s) && u in s.calls && !s.calls[u].registered
    ensures Places(RegisterStep(s, u)) && Calls(RegisterStep(s, u))
    ensures u in s.intent && s.intent[u] == [] && u !in s.reg
  {
    assert RegisterStep(s, u).calls.Keys == s.calls.Keys;
    assert IsAt(s.stage, u, Calling);
    EmptyIntent(s, u);
  }

  lemma RegisterLogs(s: State, u: string)
    requires Logs(s) && Flights(s)
    requires u in s.calls && u in s.intent && s.intent[u] == [] && u !in s.reg
    ensures var s' := RegisterStep(s, u); Logs(s') && Flights(s')
  {
  }

  lemma RegisterStreams(s: State, u: string)
    requires Streams(s) && u in s.calls && u !in s.reg
    ensures Streams(RegisterStep(s, u))
  {
    var s' := RegisterStep(s, u);
    forall o, c | o in s.hub.subscribers && c in s.hub.subscribers[o]
      ensures StreamOk(c, o, s'.log, s'.tickOut.flight, s'.pollOut.flight, s'.reg)
    {
      assert StreamOk(c, o, s.log, s.tickOut.flight, s.pollOut.flight, s.reg);
    }
  }

  lemma KeepsRegister(s: State, u: string)
    requires Inv(s) && u in s.calls && !s.calls[u].registered
    ensures Inv(RegisterStep(s, u))
  {
    var s' := RegisterStep(s, u);
    RegisterFacts(s, u);
    RegisterLogs(s, u);
    RegisterStreams(s, u);
  }

  lemma CountPlaces(s: State, u: string)
    requires Places(s) && u in s.calls
    ensures Places(CountStep(s, u)) && IsAt(s.stage, u, Calling) && u !in s.counted
  {
    var s' := CountStep(s, u);
    assert IsAt(s.stage, u, Calling);
    PlacesMove(s.stage, u, Counted,
               s.calls.Keys, s.counted.Keys, Uuids(s.buffer), Uuids(s.tick.Rest()), BundleIds(s.tick.Won()),
               TrackedIds(s.tracked),
               s'.calls.Keys, s'.counted.Keys, Uuids(s.buffer), Uuids(s.tick.Rest()), BundleIds(s.tick.Won()),
               TrackedIds(s.tracked));
  }

  lemma CountCounts(s: State, u: string)
    requires CountsOk(s) && u in s.calls && u !in s.counted
    ensures CountsOk(CountStep(s, u))
  {
    assert CountStep(s, u).counted.Keys == s.counted.Keys + {u};
  }

  lemma KeepsCount(s: State, u: string)
    requires Inv(s) && u in s.calls && s.calls[u].registered
    ensures Inv(CountStep(s, u))
  {
    CountPlaces(s, u);
    CountIntents(s, u);
    CountCalls(s, u);
    CountTickOut(s, u);
    CountCounts(s, u);
  }

  lemma CountIntents(s: State, u: string)
    requires Places(s) && Intents(s) && Forwards(s) && u in s.calls
    ensures Intents(CountStep(s, u)) && Forwards(CountStep(s, u))
  {
    var s' := CountStep(s, u);
    assert IsAt(s.stage, u, Calling);
    EmptyIntent(s, u);
    IntentsMove(s, s', u, Counted, []);
    ForwardsMove(s, s', u, Counted, []);
  }

  lemma CountTickOut(s: State, u: string)
    requires TickOut(s) && u in s.calls
    ensures TickOut(CountStep(s, u))
  {
    Restage(s, CountStep(s, u));
  }

  lemma CountCalls(s: State, u: string)
    requires Calls(s) && u in s.calls
    ensures Calls(CountStep(s, u))
  {
  }

  /** Before ranking is over, a bundle that did not fail simulation has no history. */
  lemma EmptyIntent(s: State, u: string)
    requires Intents(s) && u in s.stage && (s.stage[u] == Calling || s.stage[u] == Counted || s.stage[u] == Ranking)
    ensures u in s.intent && s.intent[u] == [] && s.intent[u := []] == s.intent
  {
    assert StageAllows(s.stage[u], s.intent[u]);
  }

  lemma PushPlaces(P: Params, s: State, u: string)
    requires Places(s) && u in s.counted && s.counted[u].uuid == u
    ensures Places(PushStep(P, s, u)) && IsAt(s.stage, u, Counted)
  {
    var s' := PushStep(P, s, u);
    var b := s'.buffer[|s.buffer|];
    assert IsAt(s.stage, u, Counted);
    assert s'.buffer == s.buffer + [b];
    UuidsAppend(s.buffer, b);
    PlacesMove(s.stage, u, Buffered,
               s.calls.Keys, s.counted.Keys, Uuids(s.buffer), Uuids(s.tick.Rest()), BundleIds(s.tick.Won()),
               TrackedIds(s.tracked),
               s.calls.Keys, s'.counted.Keys, Uuids(s'.buffer), Uuids(s.tick.Rest()), BundleIds(s.tick.Won()),
               TrackedIds(s.tracked));
  }

  lemma PushIntents(P: Params, s: State, u: string)
    requires Places(s) && Intents(s) && Forwards(s) && u in s.counted && s.counted[u].uuid == u
    ensures Intents(PushStep(P, s, u)) && Forwards(PushStep(P, s, u))
  {
    var s' := PushStep(P, s, u);
    assert IsAt(s.stage, u, Counted);
    EmptyIntent(s, u);
    IntentsMove(s, s'.(buffer := s.buffer), u, Buffered, []);
    IntentsBuffer(s'.stage, s'.intent, s.buffer, s'.buffer[|s.buffer|], s.tracked);
    ForwardsMove(s, s', u, Buffered, []);
  }

  lemma PushTickOut(P: Params, s: State, u: string)
    requires TickOut(s) && u in s.counted
    ensures TickOut(PushStep(P, s, u))
  {
    Restage(s, PushStep(P, s, u));
  }

  lemma IntentsBuffer(
    stage: map<string, Stage>, intent: History, buffer: seq<PendingBundle>, b: PendingBundle, tracked: seq<Tracked>)
    requires IntentsOk(stage, intent, buffer, tracked) && b.sim.None? && Of(intent, b.bundle.uuid) == []
    ensures IntentsOk(stage, intent, buffer + [b], tracked)
  {
  }

  lemma PushCounts(P: Params, s: State, u: string)
    requires CountsOk(s) && u in s.counted && !s.tick.Draining?
    ensures CountsOk(PushStep(P, s, u))
  {
    assert PushStep(P, s, u).counted.Keys == s.counted.Keys - {u};
  }

  lemma PushCalls(P: Params, s: State, u: string)
    requires Calls(s) && u in s.counted
    ensures Calls(PushStep(P, s, u)) && s.counted[u].uuid == u
  {
  }

  lemma PushQueue(P: Params, s: State, u: string)
    requires Queue(s) && u in s.counted
    ensures Queue(PushStep(P, s, u))
  {
    var s' := PushStep(P, s, u);
    if s.tick.Simulating? {
      forall v | v in s.tick.queue ensures exists b :: b in s'.buffer && b.bundle.uuid == v && b.sim.None? {
        var b :| b in s.buffer && b.bundle.uuid == v && b.sim.None?;
        assert b in s'.buffer;
      }
    }
  }

  lemma KeepsPush(P: Params, s: State, u: string)
    requires Inv(s) && u in s.counted && !s.tick.Draining?
    ensures Inv(PushStep(P, s, u))
  {
    PushCalls(P, s, u);
    PushPlaces(P, s, u);
    PushIntents(P, s, u);
    PushTickOut(P, s, u);
    PushCounts(P, s, u);
    PushQueue(P, s, u);
  }

  // ----- a tick begins -----

  lemma {:induction false} FilterDistinct(s: seq<PendingBundle>, p: PendingBundle -> bool)
    requires Distinct(Uuids(s))
    ensures Distinct(Uuids(Filter(s, p)))
  {
    if s != [] {
      UuidsTail(s);
      assert Distinct(Uuids(s[1..]));
      FilterDistinct(s[1..], p);
      var rest := Filter(s[1..], p);
      forall j | 0 <= j < |rest| ensures rest[j].bundle.uuid != s[0].bundle.uuid {
        FilterMember(s[1..], p, rest[j]);
        var i :| 0 <= i < |s[1..]| && s[1..][i] == rest[j];
        assert Uuids(s)[i + 1] == rest[j].bundle.uuid;
      }
      assert Uuids([s[0]] + rest) == [s[0].bundle.uuid] + Uuids(rest);
    }
  }

  lemma StartTickQueue(P: Params, s: State)
    requires Places(s) && s.tick.Waiting?
    ensures Queue(StartTickStep(P, s))
  {
    var todo := Filter(s.buffer, UnsimulatedTest());
    FilterDistinct(s.buffer, UnsimulatedTest());
    forall u | u in Uuids(todo) ensures exists b :: b in s.buffer && b.bundle.uuid == u && b.sim.None? {
      UuidsMember(todo, u);
      var b :| b in todo && b.bundle.uuid == u;
      FilterMember(s.buffer, UnsimulatedTest(), b);
    }
  }

  lemma KeepsStartTick(P: Params, s: State)
    requires Inv(s) && s.tick.Waiting?
    ensures Inv(StartTickStep(P, s))
  {
    StartTickQueue(P, s);
  }

  // ----- simulation -----

  lemma {:induction false} SimulationUuids(buffer: seq<PendingBundle>, u: string, outcome: SimOutcome)
    ensures Uuids(WithSimulation(buffer, u, outcome)) == Uuids(buffer)
  {
    if buffer != [] && buffer[0].bundle.uuid != u {
      SimulationUuids(buffer[1..], u, outcome);
      UuidsTail(buffer);
      UuidsTail(WithSimulation(buffer, u, outcome));
      assert WithSimulation(buffer, u, outcome)[1..] == WithSimulation(buffer[1..], u, outcome);
    }
  }

  /** Only the bundle itself is changed. */
  lemma {:induction false} SimulationMember(
    buffer: seq<PendingBundle>, u: string, outcome: SimOutcome, b: PendingBundle)
    requires Distinct(Uuids(buffer))
    ensures b.bundle.uuid != u ==> (b in WithSimulation(buffer, u, outcome) <==> b in buffer)
    ensures b.bundle.uuid == u && b in WithSimulation(buffer, u, outcome) ==> b.sim == Some(outcome)
  {
    if buffer != [] {
      UuidsTail(buffer);
      assert Distinct(Uuids(buffer[1..]));
      SimulationMember(buffer[1..], u, outcome, b);
      if buffer[0].bundle.uuid == u && b in buffer[1..] {
        var i :| 0 <= i < |buffer[1..]| && buffer[1..][i] == b;
        assert Uuids(buffer)[i + 1] == b.bundle.uuid;
      }
    }
  }

  lemma QueuedIsFresh(s: State)
    requires Places(s) && Intents(s) && Queue(s) && s.tick.Simulating? && s.tick.queue != []
    ensures var u := s.tick.queue[0];
      IsAt(s.stage, u, Buffered) && u in s.intent && s.intent[u] == []
  {
    var u := s.tick.queue[0];
    assert u in s.tick.queue;
    var b :| b in s.buffer && b.bundle.uuid == u && b.sim.None?;
    UuidsMember(s.buffer, u);
  }

  lemma SetSimPlaces(s: State, outcome: SimOutcome)
    requires Places(s) && s.tick.Simulating? && s.tick.queue != []
    ensures Places(SetSimStep(s, outcome))
  {
    SimulationUuids(s.buffer, s.tick.queue[0], outcome);
  }

  lemma SetSimQueue(s: State, outcome: SimOutcome)
    requires Places(s) && Queue(s) && s.tick.Simulating? && s.tick.queue != []
    ensures Queue(SetSimStep(s, outcome))
  {
    var q, s' := s.tick.queue, SetSimStep(s, outcome);
    assert forall j :: 0 < j < |q| ==> q[j] == q[1..][j - 1];
    forall v | v in q[1..] ensures exists b :: b in s'.buffer && b.bundle.uuid == v && b.sim.None? {
      assert v in q && v != q[0];
      var b :| b in s.buffer && b.bundle.uuid == v && b.sim.None?;
      SimulationMember(s.buffer, q[0], outcome, b);
    }
  }

  lemma SetSimIntents(s: State, outcome: SimOutcome)
    requires Places(s) && Intents(s) && Queue(s) && s.tick.Simulating? && s.tick.queue != []
    ensures Intents(SetSimStep(s, outcome))
  {
    var u, s' := s.tick.queue[0], SetSimStep(s, outcome);
    QueuedIsFresh(s);
    NotTracked(s.tracked, s.stage, u);
    assert s'.stage == s.stage;
    forall b | b in s'.buffer
      ensures Of(s'.intent, b.bundle.uuid) == if b.FailedSimulation() then [SimFailure] else []
    {
      SimulationMember(s.buffer, u, outcome, b);
    }
  }

  lemma SetSimForwards(s: State, outcome: SimOutcome)
    requires Places(s) && Intents(s) && Queue(s) && Forwards(s) && s.tick.Simulating? && s.tick.queue != []
    ensures Forwards(SetSimStep(s, outcome))
  {
    QueuedIsFresh(s);
  }

  lemma SetSimCounts(s: State, outcome: SimOutcome)
    requires CountsOk(s) && s.tick.Simulating? && s.tick.queue != []
    ensures CountsOk(SetSimStep(s, outcome))
  {
    WithSimulationLength(s.buffer, s.tick.queue[0], outcome);
  }

  /** A task that was idle decides on the first result of a uuid without history. */
  ghost predicate DecidesFirst(s: State, s': State, u: string, k: ResultKind) {
    && s.tickOut.Idle() && u in s.intent && s.intent[u] == []
    && s'.tickOut == Outbox([Publication(u, k)], None) && s'.pollOut == s.pollOut && s'.poll == s.poll
    && s'.intent == s.intent[u := [k]] && s'.log == s.log && s'.reg == s.reg && s'.hub.owners == s.hub.owners
    && (s'.tick.Simulating? || s'.tick.Draining?)
    && u in s'.stage && s'.stage[u] != Tracking
  }

  lemma DecideOutboxes(s: State, s': State, u: string, k: ResultKind)
    requires TickOut(s) && PollOut(s) && DecidesFirst(s, s', u, k)
    ensures TickOut(s') && PollOut(s')
  {
    assert forall v :: v != u ==> Of(s'.intent, v) == Of(s.intent, v);
  }

  lemma DecideLogs(s: State, s': State, u: string, k: ResultKind)
    requires PollOut(s) && Logs(s) && DecidesFirst(s, s', u, k)
    ensures Logs(s')
  {
    assert s.tickOut.todo == [];
    forall v | v != u
      ensures InTodo(s'.tickOut.todo, s'.pollOut.todo, v) <==> InTodo(s.tickOut.todo, s.pollOut.todo, v)
    {
      if InTodo(s'.tickOut.todo, s'.pollOut.todo, v) {
        var p :| (p in s'.tickOut.todo || p in s'.pollOut.todo) && p.uuid == v;
        assert p in s.pollOut.todo;
      }
    }
    assert s'.tickOut.todo[0] in s'.tickOut.todo;
    assert InTodo(s'.tickOut.todo, s'.pollOut.todo, u);
  }

  lemma DecideFlights(s: State, s': State, u: string, k: ResultKind)
    requires PollOut(s) && Flights(s) && DecidesFirst(s, s', u, k)
    ensures Flights(s')
  {
    if s.pollOut.flight.Some? {
      assert s.pollOut.Active(s.pollOut.flight.value.pub);
      assert s.pollOut.flight.value.pub.uuid != u;
    }
  }

  lemma Decided(s: State, s': State, u: string, k: ResultKind)
    requires TickOut(s) && PollOut(s) && Logs(s) && Flights(s) && DecidesFirst(s, s', u, k)
    ensures TickOut(s') && PollOut(s') && Logs(s') && Flights(s')
  {
    DecideOutboxes(s, s', u, k);
    DecideLogs(s, s', u, k);
    DecideFlights(s, s', u, k);
  }

  lemma SetSimDecides(s: State, outcome: SimOutcome)
    requires Places(s) && Intents(s) && Queue(s) && s.tick.Simulating? && s.tick.queue != [] && s.tickOut.Idle()
    ensures !outcome.ok ==> DecidesFirst(s, SetSimStep(s, outcome), s.tick.queue[0], SimFailure)
  {
    QueuedIsFresh(s);
    assert Of(s.intent, s.tick.queue[0]) + [SimFailure] == [SimFailure];
  }

  lemma KeepsSetSim(s: State, outcome: SimOutcome)
    requires Inv(s) && s.tick.Simulating? && s.tick.queue != [] && s.tickOut.Idle()
    ensures Inv(SetSimStep(s, outcome))
  {
    SetSimPlaces(s, outcome);
    SetSimQueue(s, outcome);
    SetSimIntents(s, outcome);
    SetSimForwards(s, outcome);
    SetSimCounts(s, outcome);
    SetSimDecides(s, outcome);
    if !outcome.ok {
      Decided(s, SetSimStep(s, outcome), s.tick.queue[0], SimFailure);
    }
  }

  // ----- ranking -----

  lemma {:induction false} CountedOnce(s: seq<PendingBundle>, b: PendingBundle)
    requires Distinct(Uuids(s))
    ensures multiset(s)[b] <= 1
  {
    if s != [] {
      UuidsTail(s);
      assert Distinct(Uuids(s[1..]));
      CountedOnce(s[1..], b);
      assert s == [s[0]] + s[1..];
      assert forall i :: 0 <= i < |s[1..]| ==> s[1..][i].bundle.uuid == Uuids(s)[i + 1];
      assert s[0] !in s[1..];
    }
  }

  lemma PermutationDistinct(s: seq<PendingBundle>, r: seq<PendingBundle>)
    requires Distinct(Uuids(s)) && multiset(r) == multiset(s)
    ensures Distinct(Uuids(r))
  {
    forall i, j | 0 <= i < j < |r| ensures r[i].bundle.uuid != r[j].bundle.uuid {
      assert r[i] in multiset(s) && r[j] in multiset(s);
      var k :| 0 <= k < |s| && s[k] == r[i];
      var l :| 0 <= l < |s| && s[l] == r[j];
      TwoPositions(r, i, j);
      CountedOnce(s, r[i]);
      assert Uuids(s)[k] == r[i].bundle.uuid && Uuids(s)[l] == r[j].bundle.uuid;
    }
  }

  lemma TwoPositions<T>(r: seq<T>, i: nat, j: nat)
    requires i < j < |r|
    ensures r[i] == r[j] ==> multiset(r)[r[i]] >= 2
  {
    assert r == r[..j] + r[j..];
    assert r[..j][i] in r[..j] && r[j..][0] in r[j..];
  }

  lemma RankedFacts(P: Params, s: State)
    requires Places(s)
    ensures var ranked := Ranked(s.buffer, P.cfg, s.now);
      && Distinct(Uuids(ranked)) && |ranked| <= |s.buffer|
      && (forall b :: b in ranked ==> b in s.buffer && !b.FailedSimulation())
      && (forall u :: u in Uuids(ranked) ==> IsAt(s.stage, u, Buffered))
  {
    var alive, ranked := Survivors(s.buffer, P.cfg, s.now), Ranked(s.buffer, P.cfg, s.now);
    SortFacts(alive, KeyOf(P.cfg.density));
    FilterDistinct(s.buffer, SurvivalTest(s.now, P.cfg.ttl));
    PermutationDistinct(alive, ranked);
    FilterShorter(s.buffer, SurvivalTest(s.now, P.cfg.ttl));
    forall b | b in ranked ensures b in s.buffer && !b.FailedSimulation() {
      SortMember(alive, KeyOf(P.cfg.density), b);
      FilterMember(s.buffer, SurvivalTest(s.now, P.cfg.ttl), b);
    }
    forall u | u in Uuids(ranked) ensures IsAt(s.stage, u, Buffered) {
      UuidsMember(ranked, u);
      UuidsMember(s.buffer, u);
    }
  }

  lemma {:induction false} FilterShorter<T>(s: seq<T>, p: T -> bool)
    ensures |Filter(s, p)| <= |s|
  {
    if s != [] {
      FilterShorter(s[1..], p);
    }
  }

  lemma SettleHolds(l: seq<string>, stage: map<string, Stage>, x: Stage, from: Stage, kept: seq<string>, to: Stage)
    requires Holds(l, stage, x) && x != from && x != to && x != Done
    ensures Holds(l, Settle(stage, from, kept, to), x)
  {
  }

  lemma StartAuctionPlaces(P: Params, s: State)
    requires Places(s) && s.tick.Simulating?
    ensures Places(StartAuctionStep(P, s))
  {
    var ranked := Uuids(Ranked(s.buffer, P.cfg, s.now));
    RankedFacts(P, s);
    SettleHolds(BundleIds(s.tick.Won()), s.stage, Winning, Buffered, ranked, Ranking);
    SettleHolds(TrackedIds(s.tracked), s.stage, Tracking, Buffered, ranked, Ranking);
    StartAuctionLists(s.stage, Uuids(s.buffer), ranked);
  }

  lemma StartAuctionLists(stage: map<string, Stage>, buffer: seq<string>, ranked: seq<string>)
    requires Holds(buffer, stage, Buffered) && Holds([], stage, Ranking)
    requires Distinct(ranked) && forall u :: u in ranked ==> IsAt(stage, u, Buffered)
    ensures var stage' := Settle(stage, Buffered, ranked, Ranking);
      Holds([], stage', Buffered) && Holds(ranked, stage', Ranking)
  {
    var stage' := Settle(stage, Buffered, ranked, Ranking);
    forall u ensures !IsAt(stage', u, Buffered) && (u in ranked <==> IsAt(stage', u, Ranking)) {
      assert u in [] <==> IsAt(stage, u, Ranking);
    }
  }

  lemma StartAuctionIntents(P: Params, s: State)
    requires Places(s) && Intents(s)
    ensures Intents(StartAuctionStep(P, s))
  {
    var s' := StartAuctionStep(P, s);
    var ranked := Ranked(s.buffer, P.cfg, s.now);
    RankedFacts(P, s);
    forall u | u in s'.stage ensures StageAllows(s'.stage[u], s'.intent[u]) {
      assert StageAllows(s.stage[u], s.intent[u]);
      if s.stage[u] == Buffered && u in Uuids(ranked) {
        UuidsMember(ranked, u);
      }
    }
  }

  lemma StartAuctionRest(P: Params, s: State)
    requires Places(s) && Forwards(s) && TickOut(s) && CountsOk(s) && s.tick.Simulating? && s.tickOut.Idle()
    ensures var s' := StartAuctionStep(P, s); Forwards(s') && TickOut(s') && CountsOk(s')
  {
    RankedFacts(P, s);
  }

  lemma KeepsStartAuction(P: Params, s: State)
    requires Inv(s) && s.tick.Simulating? && s.tickOut.Idle()
    ensures Inv(StartAuctionStep(P, s))
  {
    StartAuctionPlaces(P, s);
    StartAuctionIntents(P, s);
    StartAuctionRest(P, s);
  }

  // ----- draining -----

  lemma DrainHead(s: State)
    requires Places(s) && Intents(s) && s.tick.Draining? && s.tick.rest != []
    ensures var u := s.tick.rest[0].bundle.uuid;
      IsAt(s.stage, u, Ranking) && u in s.intent && s.intent[u] == []
  {
    var u := s.tick.rest[0].bundle.uuid;
    UuidsTail(s.tick.rest);
    assert u in Uuids(s.tick.Rest());
    EmptyIntent(s, u);
  }

  lemma DrainPlaces(P: Params, s: State)
    requires Places(s) && Intents(s) && s.tick.Draining? && s.tick.rest != []
    ensures Places(DrainStep(P, s))
  {
    var b, s' := s.tick.rest[0], DrainStep(P, s);
    DrainHead(s);
    UuidsTail(s.tick.rest);
    BundleIdsAppend(s.tick.winners, b.bundle);
    PlacesMove(s.stage, b.bundle.uuid, if DrainKind(P, s).Accepted? then Winning else Done,
               s.calls.Keys, s.counted.Keys, Uuids(s.buffer), Uuids(s.tick.rest), BundleIds(s.tick.winners),
               TrackedIds(s.tracked),
               s.calls.Keys, s.counted.Keys, Uuids(s.buffer), Uuids(s.tick.rest[1..]), BundleIds(s'.tick.winners),
               TrackedIds(s.tracked));
  }

  lemma DrainDecides(P: Params, s: State)
    requires Places(s) && Intents(s) && s.tick.Draining? && s.tick.rest != [] && s.tickOut.Idle()
    ensures DecidesFirst(s, DrainStep(P, s), s.tick.rest[0].bundle.uuid, DrainKind(P, s))
  {
    DrainHead(s);
    assert Of(s.intent, s.tick.rest[0].bundle.uuid) + [DrainKind(P, s)] == [DrainKind(P, s)];
  }

  lemma DrainIntents(P: Params, s: State)
    requires Places(s) && Intents(s) && Forwards(s) && s.tick.Draining? && s.tick.rest != []
    ensures Intents(DrainStep(P, s)) && Forwards(DrainStep(P, s))
  {
    var u, s', k := s.tick.rest[0].bundle.uuid, DrainStep(P, s), DrainKind(P, s);
    DrainHead(s);
    assert Of(s.intent, u) + [k] == [k];
    IntentsMove(s, s', u, s'.stage[u], [k]);
    ForwardsMove(s, s', u, s'.stage[u], [k]);
  }

  lemma KeepsDrain(P: Params, s: State)
    requires Inv(s) && s.tick.Draining? && s.tick.rest != [] && s.tickOut.Idle()
    ensures Inv(DrainStep(P, s))
  {
    DrainPlaces(P, s);
    DrainIntents(P, s);
    DrainDecides(P, s);
    Decided(s, DrainStep(P, s), s.tick.rest[0].bundle.uuid, DrainKind(P, s));
  }

  lemma KeepsFinishAuction(s: State)
    requires Inv(s) && s.tick.Draining? && s.tick.rest == [] && s.tickOut.Idle()
    ensures Inv(FinishAuctionStep(s))
  {
    assert FinishAuctionStep(s).tick.Rest() == s.tick.Rest();
  }

  // ----- handing winners on -----

  lemma HandFacts(s: State)
    requires Places(s) && Intents(s) && s.tick.Handing? && s.tick.left != []
    ensures var u := s.tick.left[0].uuid;
      IsAt(s.stage, u, Winning) && u in s.intent && s.intent[u] == [Accepted(0)]
    ensures BundleIds(s.tick.left)[0] == s.tick.left[0].uuid
    ensures BundleIds(s.tick.left)[1..] == BundleIds(s.tick.left[1..])
  {
    assert BundleIds(s.tick.Won())[0] == s.tick.left[0].uuid;
    assert s.tick.left[0].uuid in BundleIds(s.tick.Won());
    assert StageAllows(Winning, s.intent[s.tick.left[0].uuid]);
  }

  lemma HandPlaces(P: Params, s: State)
    requires Places(s) && Intents(s) && s.tick.Handing? && s.tick.left != []
    ensures Places(HandStep(P, s))
  {
    var w, s' := s.tick.left[0], HandStep(P, s);
    HandFacts(s);
    if s'.stage[w.uuid] == Tracking {
      TrackedIdsAppend(s.tracked, s'.tracked[|s.tracked|]);
    }
    PlacesMove(s.stage, w.uuid, s'.stage[w.uuid],
               s.calls.Keys, s.counted.Keys, Uuids(s.buffer), Uuids(s.tick.Rest()), BundleIds(s.tick.left),
               TrackedIds(s.tracked),
               s.calls.Keys, s.counted.Keys, Uuids(s.buffer), Uuids(s.tick.Rest()), BundleIds(s.tick.left[1..]),
               TrackedIds(s'.tracked));
  }

  lemma TrackedIdsAppend(s: seq<Tracked>, t: Tracked)
    ensures TrackedIds(s + [t]) == TrackedIds(s) + [t.uuid]
  {
  }

  lemma HandIntents(P: Params, s: State)
    requires Places(s) && Intents(s) && s.tick.Handing? && s.tick.left != []
    ensures Intents(HandStep(P, s))
  {
    var u, s' := s.tick.left[0].uuid, HandStep(P, s);
    HandFacts(s);
    assert s.intent[u := [Accepted(0)]] == s.intent;
    IntentsMove(s, s'.(tracked := s.tracked), u, s'.stage[u], [Accepted(0)]);
    if s'.stage[u] == Tracking {
      IntentsTrack(s'.stage, s'.intent, s.buffer, s.tracked, s'.tracked[|s.tracked|]);
    }
  }

  lemma IntentsTrack(
    stage: map<string, Stage>, intent: History, buffer: seq<PendingBundle>, tracked: seq<Tracked>, t: Tracked)
    requires IntentsOk(stage, intent, buffer, tracked) && !t.processedEmitted && |Of(intent, t.uuid)| == 1
    ensures IntentsOk(stage, intent, buffer, tracked + [t])
  {
  }

  lemma HandForwards(P: Params, s: State)
    requires Places(s) && Intents(s) && Forwards(s) && s.tick.Handing? && s.tick.left != []
    ensures Forwards(HandStep(P, s))
  {
    var w, s' := s.tick.left[0], HandStep(P, s);
    HandFacts(s);
    assert s.forwarded + s.tick.InSending() == s.forwarded;
    NotForwarded(BundleIds(s.forwarded), s.stage, s.intent, w.uuid);
    BundleIdsAppend(s.forwarded, w);
  }

  lemma KeepsHand(P: Params, s: State)
    requires Inv(s) && s.tick.Handing? && s.tick.left != []
    ensures Inv(HandStep(P, s))
  {
    HandPlaces(P, s);
    HandIntents(P, s);
    HandForwards(P, s);
  }

  lemma KeepsSendOk(s: State)
    requires Inv(s) && s.tick.Sending?
    ensures Inv(s.(tick := Handing(s.tick.left), forwarded := s.forwarded + [s.tick.winner]))
  {
    var s' := s.(tick := Handing(s.tick.left), forwarded := s.forwarded + [s.tick.winner]);
    assert s'.forwarded + s'.tick.InSending() == s.forwarded + s.tick.InSending();
    assert s'.tick.Won() == s.tick.Won() && s'.tick.Rest() == s.tick.Rest();
  }

  lemma SendFailedForwards(s: State)
    requires Forwards(s) && s.tick.Sending?
    ensures Forwards(s.(tick := Stopped(s.tick.left)))
  {
    var s' := s.(tick := Stopped(s.tick.left));
    BundleIdsAppend(s.forwarded, s.tick.winner);
    assert s'.forwarded + s'.tick.InSending() == s.forwarded;
    var before, after := BundleIds(s.forwarded + s.tick.InSending()), BundleIds(s.forwarded);
    assert forall i :: 0 <= i < |after| ==> after[i] == before[i];
  }

  lemma KeepsSendFailed(s: State)
    requires Inv(s) && s.tick.Sending?
    ensures Inv(s.(tick := Stopped(s.tick.left)))
  {
    var s' := s.(tick := Stopped(s.tick.left));
    SendFailedForwards(s);
    assert s'.tick.Won() == s.tick.Won() && s'.tick.Rest() == s.tick.Rest();
  }

  lemma KeepsEndTick(s: State)
    requires Inv(s) && s.tick.Handing? && s.tick.left == []
    ensures Inv(s.(tick := Waiting))
  {
    var s' := s.(tick := Waiting);
    assert s'.tick.Won() == s.tick.Won() && s'.tick.Rest() == s.tick.Rest();
  }

  // ----- the poll task -----

  lemma KeepsAsk(s: State)
    requires Inv(s) && s.poll.Sleeping? && s.pollOut.Idle()
    ensures Inv(AskStep(s))
  {
  }

  lemma {:induction false} AnnounceOther(intent: History, pubs: seq<Publication>, u: string)
    requires NotIn(pubs, u)
    ensures Of(Announce(intent, pubs), u) == Of(intent, u) && (u in Announce(intent, pubs) <==> u in intent)
  {
    if pubs != [] {
      AnnounceOther(intent, pubs[..|pubs| - 1], u);
      assert pubs[|pubs| - 1].uuid != u;
    }
  }

  lemma {:induction false} AnnounceTarget(intent: History, pubs: seq<Publication>, p: Publication)
    requires DistinctTargets(pubs) && p in pubs
    ensures Of(Announce(intent, pubs), p.uuid) == Of(intent, p.uuid) + [p.kind] && p.uuid in Announce(intent, pubs)
  {
    var init, last := pubs[..|pubs| - 1], pubs[|pubs| - 1];
    InitLast(pubs);
    if p == last {
      AnnounceOther(intent, init, p.uuid);
    } else {
      AnnounceTarget(intent, init, p);
      assert p.uuid != last.uuid;
    }
  }

  /** Verdicts never report a bundle as processed twice. */
  ghost predicate ProcessesOnce(j: Judgement) {
    forall t: Tracked :: j(t).Process? ==> !t.processedEmitted
  }

  lemma SameEntry(tracked: seq<Tracked>, t: Tracked, t': Tracked)
    requires Distinct(TrackedIds(tracked)) && t in tracked && t' in tracked && t.uuid == t'.uuid
    ensures t == t'
  {
    var i :| 0 <= i < |tracked| && tracked[i] == t;
    var k :| 0 <= k < |tracked| && tracked[k] == t';
    assert TrackedIds(tracked)[i] == TrackedIds(tracked)[k];
  }

  lemma DistinctEntries(tracked: seq<Tracked>)
    ensures Distinct(TrackedIds(tracked)) <==> DistinctUuids(tracked)
  {
    if Distinct(TrackedIds(tracked)) {
      forall i, k | 0 <= i < k < |tracked| ensures tracked[i].uuid != tracked[k].uuid {
        assert TrackedIds(tracked)[i] != TrackedIds(tracked)[k];
      }
    }
  }

  /** What a sweep does to one entry: its announcement is appended to its history, and it
      stays exactly if it does not leave. */
  lemma EntryAfter(intent: History, tracked: seq<Tracked>, j: Judgement, t: Tracked)
    requires Distinct(TrackedIds(tracked)) && t in tracked
    ensures var a := Announcement(t, j);
      Of(Announce(intent, Publications(tracked, j)), t.uuid)
      == if a.Some? then Of(intent, t.uuid) + [a.value.kind] else Of(intent, t.uuid)
    ensures t.uuid in TrackedIds(Remaining(tracked, j)) <==> !Leaves(t, j)
  {
    var pubs := Publications(tracked, j);
    var a := Announcement(t, j);
    if a.Some? {
      SweepAnnounces(tracked, j, a.value);
      DistinctEntries(tracked);
      OneAnnouncementEach(tracked, j);
      AnnounceTarget(intent, pubs, a.value);
    } else {
      SilentEntry(tracked, j, t);
      AnnounceOther(intent, pubs, t.uuid);
    }
    EntryStays(tracked, j, t);
  }

  lemma SilentEntry(tracked: seq<Tracked>, j: Judgement, t: Tracked)
    requires Distinct(TrackedIds(tracked)) && t in tracked && Announcement(t, j).None?
    ensures NotIn(Publications(tracked, j), t.uuid)
  {
    forall p | p in Publications(tracked, j) ensures p.uuid != t.uuid {
      SweepAnnounces(tracked, j, p);
      var t' :| t' in tracked && Announcement(t', j) == Some(p);
      if t'.uuid == t.uuid {
        SameEntry(tracked, t, t');
      }
    }
  }

  lemma EntryStays(tracked: seq<Tracked>, j: Judgement, t: Tracked)
    requires Distinct(TrackedIds(tracked)) && t in tracked
    ensures t.uuid in TrackedIds(Remaining(tracked, j)) <==> !Leaves(t, j)
  {
    var left := Remaining(tracked, j);
    TrackedMember(left, t.uuid);
    RemainingMember(tracked, j, Mark(t, j));
    if r :| r in left && r.uuid == t.uuid {
      RemainingMember(tracked, j, r);
      var t' :| t' in tracked && !Leaves(t', j) && r == Mark(t', j);
      SameEntry(tracked, t, t');
    }
  }

  /** A sweep leaves the history of everything else alone. */
  lemma OthersUntouched(intent: History, tracked: seq<Tracked>, j: Judgement, u: string)
    requires Distinct(TrackedIds(tracked)) && u !in TrackedIds(tracked)
    ensures Of(Announce(intent, Publications(tracked, j)), u) == Of(intent, u)
    ensures u !in TrackedIds(Remaining(tracked, j))
  {
    var pubs := Publications(tracked, j);
    TrackedMember(tracked, u);
    forall p | p in pubs ensures p.uuid != u {
      SweepAnnounces(tracked, j, p);
    }
    AnnounceOther(intent, pubs, u);
    TrackedMember(Remaining(tracked, j), u);
    if r :| r in Remaining(tracked, j) && r.uuid == u {
      RemainingMember(tracked, j, r);
    }
  }

  lemma AnnounceKeys(intent: History, tracked: seq<Tracked>, j: Judgement)
    requires Distinct(TrackedIds(tracked)) && forall t :: t in tracked ==> t.uuid in intent
    ensures Announce(intent, Publications(tracked, j)).Keys == intent.Keys
  {
    var pubs := Publications(tracked, j);
    forall u ensures u in Announce(intent, pubs) <==> u in intent {
      if NotIn(pubs, u) {
        AnnounceOther(intent, pubs, u);
      } else {
        var p :| p in pubs && p.uuid == u;
        SweepAnnounces(tracked, j, p);
        DistinctEntries(tracked);
        OneAnnouncementEach(tracked, j);
        AnnounceTarget(intent, pubs, p);
      }
    }
  }

  /** The effect of an answered poll, with the verdicts abstracted to a function. */
  function Swept(s: State, j: Judgement): State {
    s.(poll := Sleeping, tracked := Remaining(s.tracked, j), pollOut := Outbox(Publications(s.tracked, j), None),
       intent := Announce(s.intent, Publications(s.tracked, j)),
       stage := Settle(s.stage, Tracking, TrackedIds(Remaining(s.tracked, j)), Tracking))
  }

  lemma SweptPlaces(s: State, j: Judgement)
    requires Places(s)
    ensures Places(Swept(s, j))
  {
    var left := TrackedIds(Remaining(s.tracked, j));
    SettleHolds(Uuids(s.buffer), s.stage, Buffered, Tracking, left, Tracking);
    SettleHolds(Uuids(s.tick.Rest()), s.stage, Ranking, Tracking, left, Tracking);
    SettleHolds(BundleIds(s.tick.Won()), s.stage, Winning, Tracking, left, Tracking);
    DistinctEntries(s.tracked);
    RemainingDistinct(s.tracked, j);
    DistinctEntries(Remaining(s.tracked, j));
    forall u | u in left ensures IsAt(s.stage, u, Tracking) {
      if u !in TrackedIds(s.tracked) {
        OthersUntouched(s.intent, s.tracked, j, u);
      }
    }
    SweptLists(s.stage, left);
  }

  lemma SweptLists(stage: map<string, Stage>, left: seq<string>)
    requires Distinct(left) && forall u :: u in left ==> IsAt(stage, u, Tracking)
    ensures Holds(left, Settle(stage, Tracking, left, Tracking), Tracking)
  {
    var stage' := Settle(stage, Tracking, left, Tracking);
    forall u ensures u in left <==> IsAt(stage', u, Tracking) {
      if u in left {
        assert IsAt(stage, u, Tracking);
      }
    }
  }

  /** One uuid after the sweep: its stage allows its new history. */
  lemma SweptEntry(s: State, j: Judgement, u: string)
    requires Places(s) && Intents(s) && ProcessesOnce(j) && u in s.stage
    ensures var s' := Swept(s, j);
      && (s.stage[u] == Tracking || (s'.stage[u] == s.stage[u] && Of(s'.intent, u) == s.intent[u]))
      && StageAllows(s'.stage[u], Of(s'.intent, u))
      && s.intent[u] <= Of(s'.intent, u)
  {
    assert StageAllows(s.stage[u], s.intent[u]);
    if s.stage[u] == Tracking {
      assert IsAt(s.stage, u, Tracking);
      TrackedMember(s.tracked, u);
      var t :| t in s.tracked && t.uuid == u;
      EntryAfter(s.intent, s.tracked, j, t);
      assert Swept(s, j).stage[u] == if Leaves(t, j) then Done else Tracking;
      HistoryAfter(s.intent[u], t, j);
    } else {
      assert !IsAt(s.stage, u, Tracking);
      OthersUntouched(s.intent, s.tracked, j, u);
    }
  }

  /** An announcement extends a tracked bundle's history the way its new stage expects. */
  lemma HistoryAfter(w: seq<ResultKind>, t: Tracked, j: Judgement)
    requires StageAllows(Tracking, w) && |w| == (if t.processedEmitted then 2 else 1) && ProcessesOnce(j)
    ensures var a := Announcement(t, j);
      var w' := if a.Some? then w + [a.value.kind] else w;
      StageAllows(if Leaves(t, j) then Done else Tracking, w') && w <= w'
  {
  }

  lemma SweptKeys(s: State, j: Judgement)
    requires Places(s) && Intents(s)
    ensures Swept(s, j).intent.Keys == s.intent.Keys && Swept(s, j).stage.Keys == s.stage.Keys
  {
    forall t | t in s.tracked ensures t.uuid in s.intent {
      TrackedMember(s.tracked, t.uuid);
      assert IsAt(s.stage, t.uuid, Tracking);
    }
    AnnounceKeys(s.intent, s.tracked, j);
  }

  lemma SweptIntents(s: State, j: Judgement)
    requires Places(s) && Intents(s) && ProcessesOnce(j)
    ensures Intents(Swept(s, j))
  {
    var s' := Swept(s, j);
    SweptKeys(s, j);
    forall u | u in s'.stage ensures StageAllows(s'.stage[u], s'.intent[u]) {
      SweptEntry(s, j, u);
    }
    forall b | b in s'.buffer
      ensures Of(s'.intent, b.bundle.uuid) == if b.FailedSimulation() then [SimFailure] else []
    {
      UuidsMember(s.buffer, b.bundle.uuid);
      assert IsAt(s.stage, b.bundle.uuid, Buffered);
      SweptEntry(s, j, b.bundle.uuid);
    }
    forall r | r in s'.tracked ensures |Of(s'.intent, r.uuid)| == if r.processedEmitted then 2 else 1 {
      RemainingMember(s.tracked, j, r);
      var t :| t in s.tracked && !Leaves(t, j) && r == Mark(t, j);
      EntryAfter(s.intent, s.tracked, j, t);
    }
  }

  lemma SweptForwards(s: State, j: Judgement)
    requires Places(s) && Intents(s) && Forwards(s) && ProcessesOnce(j)
    ensures Forwards(Swept(s, j))
  {
    var s' := Swept(s, j);
    var fs := BundleIds(s.forwarded + s.tick.InSending());
    forall u | u in fs
      ensures u in s'.stage && (s'.stage[u] == Tracking || s'.stage[u] == Done)
              && Of(s'.intent, u) != [] && s'.intent[u][0] == Accepted(0)
    {
      SweptEntry(s, j, u);
    }
  }

  lemma SweptTickOut(s: State, j: Judgement)
    requires Places(s) && Intents(s) && TickOut(s) && ProcessesOnce(j)
    ensures TickOut(Swept(s, j))
  {
    var s' := Swept(s, j);
    forall p | s.tickOut.Active(p)
      ensures p.uuid in s'.stage && s'.stage[p.uuid] != Tracking && Of(s'.intent, p.uuid) == [p.kind]
    {
      SweptEntry(s, j, p.uuid);
    }
  }

  lemma SweptPollOut(s: State, j: Judgement)
    requires Places(s) && Intents(s)
    ensures PollOut(Swept(s, j))
  {
    var s', pubs := Swept(s, j), Publications(s.tracked, j);
    DistinctEntries(s.tracked);
    OneAnnouncementEach(s.tracked, j);
    forall p | s'.pollOut.Active(p)
      ensures |Of(s'.intent, p.uuid)| >= 2 && Of(s'.intent, p.uuid)[|Of(s'.intent, p.uuid)| - 1] == p.kind
    {
      SweptTarget(s.intent, s.tracked, j, p);
    }
  }

  lemma SweptTarget(intent: History, tracked: seq<Tracked>, j: Judgement, p: Publication)
    requires Distinct(TrackedIds(tracked)) && p in Publications(tracked, j)
    requires forall t :: t in tracked ==> |Of(intent, t.uuid)| >= 1
    ensures var w := Of(Announce(intent, Publications(tracked, j)), p.uuid); |w| >= 2 && w[|w| - 1] == p.kind
  {
    SweepAnnounces(tracked, j, p);
    var t :| t in tracked && Announcement(t, j) == Some(p);
    EntryAfter(intent, tracked, j, t);
  }

  lemma SweptLogs(s: State, j: Judgement)
    requires Places(s) && Intents(s) && TickOut(s) && Logs(s) && ProcessesOnce(j) && s.pollOut.Idle()
    ensures Logs(Swept(s, j))
  {
    var s', pubs := Swept(s, j), Publications(s.tracked, j);
    SweptKeys(s, j);
    forall u | u in s'.log ensures s'.log[u] <= s'.intent[u] {
      SweptEntry(s, j, u);
    }
    forall u | u in s.hub.owners
      ensures s.log[u] == if InTodo(s.tickOut.todo, pubs, u) && s'.intent[u] != []
                          then s'.intent[u][..|s'.intent[u]| - 1] else s'.intent[u]
    {
      SweptOwner(s, j, u);
    }
  }

  lemma SweptOwner(s: State, j: Judgement, u: string)
    requires Places(s) && Intents(s) && TickOut(s) && Logs(s) && ProcessesOnce(j) && s.pollOut.Idle()
    requires u in s.hub.owners
    ensures var w := Of(Swept(s, j).intent, u);
      s.log[u] == if InTodo(s.tickOut.todo, Publications(s.tracked, j), u) && w != [] then w[..|w| - 1] else w
  {
    var pubs := Publications(s.tracked, j);
    SweptEntry(s, j, u);
    assert InTodo(s.tickOut.todo, pubs, u) <==> InTodo(s.tickOut.todo, [], u) || InTodo([], pubs, u);
    assert InTodo(s.tickOut.todo, s.pollOut.todo, u) <==> InTodo(s.tickOut.todo, [], u);
    if s.stage[u] == Tracking {
      forall p | p in s.tickOut.todo ensures p.uuid != u {
        assert s.tickOut.Active(p);
      }
      assert IsAt(s.stage, u, Tracking);
      TrackedMember(s.tracked, u);
      var t :| t in s.tracked && t.uuid == u;
      EntryAfter(s.intent, s.tracked, j, t);
      AnnouncedIffInTodo(s.tracked, j, t);
    } else {
      assert !IsAt(s.stage, u, Tracking);
      NobodyAnnounces(s.tracked, j, u);
    }
  }

  lemma AnnouncedIffInTodo(tracked: seq<Tracked>, j: Judgement, t: Tracked)
    requires Distinct(TrackedIds(tracked)) && t in tracked
    ensures InTodo([], Publications(tracked, j), t.uuid) <==> Announcement(t, j).Some?
  {
    var pubs := Publications(tracked, j);
    if Announcement(t, j).Some? {
      SweepAnnounces(tracked, j, Announcement(t, j).value);
    }
    if p :| p in pubs && p.uuid == t.uuid {
      SweepAnnounces(tracked, j, p);
      var t' :| t' in tracked && Announcement(t', j) == Some(p);
      SameEntry(tracked, t, t');
    }
  }

  lemma NobodyAnnounces(tracked: seq<Tracked>, j: Judgement, u: string)
    requires u !in TrackedIds(tracked)
    ensures !InTodo([], Publications(tracked, j), u)
  {
    TrackedMember(tracked, u);
    forall p | p in Publications(tracked, j) ensures p.uuid != u {
      SweepAnnounces(tracked, j, p);
    }
  }

  lemma SweptFlights(s: State, j: Judgement)
    requires Places(s) && Intents(s) && TickOut(s) && Flights(s) && ProcessesOnce(j)
    ensures Flights(Swept(s, j))
  {
    if s.tickOut.flight.Some? {
      assert s.tickOut.Active(s.tickOut.flight.value.pub);
      SweptEntry(s, j, s.tickOut.flight.value.pub.uuid);
    }
  }

  lemma KeepsSwept(s: State, j: Judgement)
    requires Inv(s) && s.pollOut.Idle() && ProcessesOnce(j)
    ensures Inv(Swept(s, j))
  {
    SweptPlaces(s, j);
    SweptIntents(s, j);
    SweptForwards(s, j);
    SweptTickOut(s, j);
    SweptPollOut(s, j);
    SweptLogs(s, j);
    SweptFlights(s, j);
  }

  lemma KeepsAnswer(P: Params, s: State, reply: Option<seq<Option<Status>>>)
    requires Inv(s) && s.poll.Asking?
    ensures Inv(AnswerStep(P, s, reply))
  {
    if reply.Some? {
      var j := JudgeBy(Evidence(Known(s.poll.batch, reply.value), s.now, P.deadline));
      assert AnswerStep(P, s, reply) == Swept(s, j);
      KeepsSwept(s, j);
    }
  }

  // ----- publishing -----

  /** The two tasks never publish for the same uuid: the tick task works on first results,
      the poll task on later ones. */
  lemma TasksAreDisjoint(s: State, p: Publication, q: Publication)
    requires TickOut(s) && PollOut(s) && s.tickOut.Active(p) && s.pollOut.Active(q)
    ensures p.uuid != q.uuid
  {
  }

  /** Resolving `p`, the head of one to-do list `[p] + a`, while the other list is `b`. */
  lemma ResolveLogs(
    log: History, intent: History, h: Hub, reg: map<string, string>,
    p: Publication, a: seq<Publication>, b: seq<Publication>)
    requires LogsOk(log, intent, h.owners, reg, [p] + a, b)
    requires NotIn(a, p.uuid) && NotIn(b, p.uuid)
    requires Of(intent, p.uuid) != [] && Of(intent, p.uuid)[|Of(intent, p.uuid)| - 1] == p.kind
    ensures p.uuid !in h.owners ==> LogsOk(log, intent, h.owners, reg, a, b)
    ensures p.uuid in h.owners ==>
      var log' := log[p.uuid := Of(log, p.uuid) + [p.kind]];
      && LogsOk(log', intent, Resolve(h, p).0.owners, reg, a, b)
      && p.uuid in reg && reg[p.uuid] == h.owners[p.uuid].pubkey && log'[p.uuid] == Of(intent, p.uuid)
  {
    var u := p.uuid;
    TodoTail(p, a, b);
    if u in h.owners {
      assert log[u] == intent[u][..|intent[u]| - 1];
      assert log[u] + [p.kind] == intent[u];
    }
  }

  lemma TodoTail(p: Publication, a: seq<Publication>, b: seq<Publication>)
    requires NotIn(a, p.uuid) && NotIn(b, p.uuid)
    ensures forall v :: InTodo([p] + a, b, v) <==> InTodo(a, b, v) || v == p.uuid
    ensures !InTodo(a, b, p.uuid)
  {
    forall v ensures InTodo([p] + a, b, v) <==> InTodo(a, b, v) || v == p.uuid {
      if InTodo(a, b, v) {
        var q :| (q in a || q in b) && q.uuid == v;
        assert q in [p] + a || q in b;
      }
      assert p in [p] + a;
    }
  }

  lemma LogsSymmetric(
    log: History, intent: History, owners: map<string, Owner>,
    reg: map<string, string>, a: seq<Publication>, b: seq<Publication>)
    requires LogsOk(log, intent, owners, reg, a, b)
    ensures LogsOk(log, intent, owners, reg, b, a)
  {
    forall v ensures InTodo(a, b, v) <==> InTodo(b, a, v) {
      if InTodo(a, b, v) {
        var q :| (q in a || q in b) && q.uuid == v;
        assert q in b || q in a;
      }
      if InTodo(b, a, v) {
        var q :| (q in b || q in a) && q.uuid == v;
        assert q in a || q in b;
      }
    }
  }

  /** A result that has been resolved but not delivered is not counted as offered yet, so
      resolving changes no stream. */
  lemma ResolveStreams(
    subs: map<string, seq<Channel>>, log: History, g: Option<Flight>, reg: map<string, string>,
    f: Flight)
    requires StreamsOk(subs, log, None, g, reg) && !Flying(g, f.pub.uuid)
    ensures StreamsOk(subs, log[f.pub.uuid := Of(log, f.pub.uuid) + [f.pub.kind]], Some(f), g, reg)
  {
    var u := f.pub.uuid;
    var log' := log[u := Of(log, u) + [f.pub.kind]];
    forall v ensures Offered(log', Some(f), g, v) == Offered(log, None, g, v) {
      OfferedResolved(log, g, f, v);
    }
    forall o, c | o in subs && c in subs[o] ensures StreamOk(c, o, log', Some(f), g, reg) {
      StreamSame(c, o, log, log', None, Some(f), g, reg);
    }
  }

  lemma OfferedResolved(log: History, g: Option<Flight>, f: Flight, v: string)
    requires !Flying(g, f.pub.uuid)
    ensures Offered(log[f.pub.uuid := Of(log, f.pub.uuid) + [f.pub.kind]], Some(f), g, v) == Offered(log, None, g, v)
  {
    var w := Of(log, f.pub.uuid);
    assert (w + [f.pub.kind])[..|w|] == w;
  }

  lemma StreamSame(
    c: Channel, owner: string, log: History, log': History,
    f: Option<Flight>, f': Option<Flight>, g: Option<Flight>, reg: map<string, string>)
    requires StreamOk(c, owner, log, f, g, reg)
    requires forall v :: Offered(log', f', g, v) == Offered(log, f, g, v)
    ensures StreamOk(c, owner, log', f', g, reg)
  {
  }

  lemma StreamsSymmetric(
    subs: map<string, seq<Channel>>, log: History, f: Option<Flight>, g: Option<Flight>, reg: map<string, string>)
    requires StreamsOk(subs, log, f, g, reg)
    ensures StreamsOk(subs, log, g, f, reg)
  {
    assert forall v :: Offered(log, f, g, v) == Offered(log, g, f, v);
    forall o, c | o in subs && c in subs[o] ensures StreamOk(c, o, log, g, f, reg) {
      assert StreamOk(c, o, log, f, g, reg);
    }
  }

  // Resolving, task by task.

  lemma TickHead(s: State)
    requires TickOut(s) && PollOut(s) && s.tickOut.flight.None? && s.tickOut.todo != []
    ensures var p := s.tickOut.todo[0];
      && s.tickOut.todo == [p] && s.tickOut.todo[1..] == []
      && NotIn(s.pollOut.todo, p.uuid) && !Flying(s.pollOut.flight, p.uuid)
      && Of(s.intent, p.uuid) != [] && Of(s.intent, p.uuid)[|Of(s.intent, p.uuid)| - 1] == p.kind
  {
    var p := s.tickOut.todo[0];
    assert s.tickOut.Active(p);
    forall q | s.pollOut.Active(q) ensures q.uuid != p.uuid {
      TasksAreDisjoint(s, p, q);
    }
    assert forall q :: q in s.pollOut.todo ==> s.pollOut.Active(q);
    if s.pollOut.flight.Some? {
      assert s.pollOut.Active(s.pollOut.flight.value.pub);
    }
  }

  lemma PollHead(s: State)
    requires TickOut(s) && PollOut(s) && s.pollOut.flight.None? && s.pollOut.todo != []
    ensures var p := s.pollOut.todo[0];
      && s.pollOut.todo == [p] + s.pollOut.todo[1..]
      && NotIn(s.pollOut.todo[1..], p.uuid) && NotIn(s.tickOut.todo, p.uuid) && !Flying(s.tickOut.flight, p.uuid)
      && Of(s.intent, p.uuid) != [] && Of(s.intent, p.uuid)[|Of(s.intent, p.uuid)| - 1] == p.kind
  {
    var todo := s.pollOut.todo;
    var p := todo[0];
    assert s.pollOut.Active(p);
    forall q | s.tickOut.Active(q) ensures q.uuid != p.uuid {
      TasksAreDisjoint(s, q, p);
    }
    assert forall q :: q in s.tickOut.todo ==> s.tickOut.Active(q);
    if s.tickOut.flight.Some? {
      assert s.tickOut.Active(s.tickOut.flight.value.pub);
    }
    forall q | q in todo[1..] ensures q.uuid != p.uuid {
      var i :| 0 <= i < |todo[1..]| && todo[1..][i] == q;
      assert todo[i + 1] == q;
    }
  }

  /** The head of a to-do list is in flight or gone; nothing else changes. */
  ghost predicate TakesHead(o: Outbox, o': Outbox) {
    && o.flight.None? && o.todo != [] && o'.todo == o.todo[1..]
    && (o'.flight.None? || o'.flight.value.pub == o.todo[0])
  }

  lemma TakesHeadActive(o: Outbox, o': Outbox)
    requires TakesHead(o, o')
    ensures forall p :: o'.Active(p) ==> o.Active(p)
  {
    assert o.todo == [o.todo[0]] + o.todo[1..];
  }

  lemma TickTakesHead(s: State, o': Outbox)
    requires TickOut(s) && TakesHead(s.tickOut, o')
    ensures TickOutOk(o', s.tick, s.stage, s.intent)
  {
    TakesHeadActive(s.tickOut, o');
  }

  lemma PollTakesHead(s: State, o': Outbox)
    requires TickOut(s) && PollOut(s) && TakesHead(s.pollOut, o')
    ensures PollOutOk(o', s.poll, s.intent)
  {
    var todo := s.pollOut.todo;
    TakesHeadActive(s.pollOut, o');
    PollHead(s);
    assert forall i :: 0 <= i < |todo[1..]| ==> todo[1..][i] == todo[i + 1];
  }

  lemma ResolveOutboxes(s: State, who: Who)
    requires TickOut(s) && PollOut(s) && OutboxOf(s, who).flight.None? && OutboxOf(s, who).todo != []
    ensures TickOut(ResolveStep(s, who)) && PollOut(ResolveStep(s, who))
  {
    if who.TickTask? {
      TickTakesHead(s, ResolveStep(s, who).tickOut);
    } else {
      PollTakesHead(s, ResolveStep(s, who).pollOut);
    }
  }

  lemma ResolveTickLogs(s: State)
    requires TickOut(s) && PollOut(s) && Logs(s) && s.tickOut.flight.None? && s.tickOut.todo != []
    ensures Logs(ResolveStep(s, TickTask))
  {
    TickHead(s);
    ResolveOnlyTick(s, s.tickOut.todo[0]);
  }

  lemma ResolveOnlyTick(s: State, p: Publication)
    requires Logs(s) && s.tickOut == Outbox([p], None) && NotIn(s.pollOut.todo, p.uuid)
    requires Of(s.intent, p.uuid) != [] && Of(s.intent, p.uuid)[|Of(s.intent, p.uuid)| - 1] == p.kind
    ensures Logs(ResolveStep(s, TickTask))
  {
    assert [p] + [] == [p] && [p][1..] == [];
    ResolveLogs(s.log, s.intent, s.hub, s.reg, p, [], s.pollOut.todo);
  }

  lemma ResolveTickFlights(s: State)
    requires TickOut(s) && PollOut(s) && Logs(s) && Flights(s)
    requires s.tickOut.flight.None? && s.tickOut.todo != []
    ensures Flights(ResolveStep(s, TickTask))
  {
    var p := s.tickOut.todo[0];
    TickHead(s);
    assert [p] + [] == s.tickOut.todo;
    ResolveLogs(s.log, s.intent, s.hub, s.reg, p, [], s.pollOut.todo);
    OtherFlight(s.pollOut.flight, s.log, s.intent, s.reg, p);
  }

  lemma OtherFlight(
    f: Option<Flight>, log: History, intent: History,
    reg: map<string, string>, p: Publication)
    requires FlightOk(f, log, intent, reg) && !Flying(f, p.uuid)
    ensures FlightOk(f, log[p.uuid := Of(log, p.uuid) + [p.kind]], intent, reg)
  {
  }

  lemma ResolveTickStreams(s: State)
    requires TickOut(s) && PollOut(s) && Streams(s) && s.tickOut.flight.None? && s.tickOut.todo != []
    ensures Streams(ResolveStep(s, TickTask))
  {
    var p := s.tickOut.todo[0];
    TickHead(s);
    if p.uuid in s.hub.owners {
      ResolveStreams(s.hub.subscribers, s.log, s.pollOut.flight, s.reg, Flight(s.hub.owners[p.uuid].pubkey, p));
    }
  }

  lemma ResolvePollLogs(s: State)
    requires TickOut(s) && PollOut(s) && Logs(s) && s.pollOut.flight.None? && s.pollOut.todo != []
    ensures Logs(ResolveStep(s, PollTask))
  {
    var p, rest := s.pollOut.todo[0], s.pollOut.todo[1..];
    PollHead(s);
    LogsSymmetric(s.log, s.intent, s.hub.owners, s.reg, s.tickOut.todo, s.pollOut.todo);
    ResolveLogs(s.log, s.intent, s.hub, s.reg, p, rest, s.tickOut.todo);
    if p.uuid in s.hub.owners {
      LogsSymmetric(s.log[p.uuid := Of(s.log, p.uuid) + [p.kind]], s.intent, Resolve(s.hub, p).0.owners, s.reg,
                    rest, s.tickOut.todo);
    } else {
      LogsSymmetric(s.log, s.intent, s.hub.owners, s.reg, rest, s.tickOut.todo);
    }
  }

  lemma ResolvePollFlights(s: State)
    requires TickOut(s) && PollOut(s) && Logs(s) && Flights(s)
    requires s.pollOut.flight.None? && s.pollOut.todo != []
    ensures Flights(ResolveStep(s, PollTask))
  {
    var p, rest := s.pollOut.todo[0], s.pollOut.todo[1..];
    PollHead(s);
    LogsSymmetric(s.log, s.intent, s.hub.owners, s.reg, s.tickOut.todo, s.pollOut.todo);
    ResolveLogs(s.log, s.intent, s.hub, s.reg, p, rest, s.tickOut.todo);
    OtherFlight(s.tickOut.flight, s.log, s.intent, s.reg, p);
  }

  lemma ResolvePollStreams(s: State)
    requires TickOut(s) && PollOut(s) && Streams(s) && s.pollOut.flight.None? && s.pollOut.todo != []
    ensures Streams(ResolveStep(s, PollTask))
  {
    var p := s.pollOut.todo[0];
    PollHead(s);
    if p.uuid in s.hub.owners {
      var f := Flight(s.hub.owners[p.uuid].pubkey, p);
      StreamsSymmetric(s.hub.subscribers, s.log, s.tickOut.flight, None, s.reg);
      ResolveStreams(s.hub.subscribers, s.log, s.tickOut.flight, s.reg, f);
      StreamsSymmetric(s.hub.subscribers, s.log[p.uuid := Of(s.log, p.uuid) + [p.kind]], Some(f), s.tickOut.flight,
                       s.reg);
    }
  }

  lemma ResolveCalls(s: State, who: Who)
    requires Calls(s) && OutboxOf(s, who).todo != []
    ensures Calls(ResolveStep(s, who))
  {
  }

  lemma KeepsResolve(s: State, who: Who)
    requires Inv(s) && OutboxOf(s, who).flight.None? && OutboxOf(s, who).todo != []
    ensures Inv(ResolveStep(s, who))
  {
    ResolveOutboxes(s, who);
    ResolveCalls(s, who);
    ResolvePublishing(s, who);
    ResolveFrame(s, who);
  }

  lemma ResolvePublishing(s: State, who: Who)
    requires TickOut(s) && PollOut(s) && Logs(s) && Flights(s) && Streams(s)
    requires OutboxOf(s, who).flight.None? && OutboxOf(s, who).todo != []
    ensures var s' := ResolveStep(s, who); Logs(s') && Flights(s') && Streams(s')
  {
    if who.TickTask? {
      ResolveTickLogs(s);
      ResolveTickFlights(s);
      ResolveTickStreams(s);
    } else {
      ResolvePollLogs(s);
      ResolvePollFlights(s);
      ResolvePollStreams(s);
    }
  }

  lemma ResolveFrame(s: State, who: Who)
    requires Places(s) && Intents(s) && Queue(s) && Forwards(s) && CountsOk(s) && OutboxOf(s, who).todo != []
    ensures var s' := ResolveStep(s, who); Places(s') && Intents(s') && Queue(s') && Forwards(s') && CountsOk(s')
  {
  }

  // Delivering.

  lemma ResultsForAppend(sent: seq<Message>, m: Message, u: string)
    ensures ResultsFor(sent + [m], u)
       == if m.bundleId == u then ResultsFor(sent, u) + [m.result] else ResultsFor(sent, u)
  {
    FilterAppend(sent, [m], TargetTest(u));
    assert Filter([m], TargetTest(u)) == if m.bundleId == u then [m] else [];
  }

  /** Once `f` is delivered, what is offered for its bundle is one result longer. */
  lemma OfferedAfter(log: History, f: Flight, g: Option<Flight>, v: string)
    requires !Flying(g, f.pub.uuid)
    requires Of(log, f.pub.uuid) != [] && Of(log, f.pub.uuid)[|Of(log, f.pub.uuid)| - 1] == f.pub.kind
    ensures Offered(log, None, g, v)
         == if v == f.pub.uuid then Offered(log, Some(f), g, v) + [f.pub.kind] else Offered(log, Some(f), g, v)
  {
    var w := Of(log, f.pub.uuid);
    assert w == w[..|w| - 1] + [w[|w| - 1]];
  }

  /** A stream stays in order whether or not it is given the delivered message. */
  lemma StreamAfter(
    c: Channel, owner: string, log: History, f: Flight, g: Option<Flight>, reg: map<string, string>,
    c': Channel)
    requires StreamOk(c, owner, log, Some(f), g, reg) && !Flying(g, f.pub.uuid)
    requires Of(log, f.pub.uuid) != [] && Of(log, f.pub.uuid)[|Of(log, f.pub.uuid)| - 1] == f.pub.kind
    requires || c' == c
             || (&& c' == c.Offer(Message(f.pub.uuid, f.pub.kind))
                 && f.pub.uuid in reg && reg[f.pub.uuid] == owner)
    ensures StreamOk(c', owner, log, None, g, reg)
  {
    var m := Message(f.pub.uuid, f.pub.kind);
    forall v ensures Subsequence(ResultsFor(c'.sent, v), Offered(log, None, g, v)) {
      OfferedAfter(log, f, g, v);
      ResultsForAppend(c.sent, m, v);
      SubsequenceGrow(ResultsFor(c.sent, v), Offered(log, Some(f), g, v), f.pub.kind);
    }
  }

  lemma DeliverStreams(
    h: Hub, log: History, f: Flight, g: Option<Flight>, reg: map<string, string>)
    requires StreamsOk(h.subscribers, log, Some(f), g, reg) && !Flying(g, f.pub.uuid)
    requires Of(log, f.pub.uuid) != [] && Of(log, f.pub.uuid)[|Of(log, f.pub.uuid)| - 1] == f.pub.kind
    requires f.pub.uuid in reg && reg[f.pub.uuid] == f.owner
    ensures StreamsOk(Deliver(h, f.owner, Message(f.pub.uuid, f.pub.kind)).subscribers, log, None, g, reg)
  {
    var m := Message(f.pub.uuid, f.pub.kind);
    var subs' := Deliver(h, f.owner, m).subscribers;
    forall o, c | o in subs' && c in subs'[o] ensures StreamOk(c, o, log, None, g, reg) {
      DeliveryRouting(h, f.owner, m, o);
      if o == f.owner {
        var before := RetainMember(h.subscribers[o], m, c);
        StreamAfter(before, o, log, f, g, reg, c);
      } else {
        StreamAfter(c, o, log, f, g, reg, c);
      }
    }
  }

  lemma FlightFacts(s: State, who: Who)
    requires TickOut(s) && PollOut(s) && Flights(s) && OutboxOf(s, who).flight.Some?
    ensures var f := OutboxOf(s, who).flight.value;
      && Of(s.log, f.pub.uuid) != [] && Of(s.log, f.pub.uuid)[|Of(s.log, f.pub.uuid)| - 1] == f.pub.kind
      && f.pub.uuid in s.reg && s.reg[f.pub.uuid] == f.owner
      && !Flying(if who.TickTask? then s.pollOut.flight else s.tickOut.flight, f.pub.uuid)
  {
    var f := OutboxOf(s, who).flight.value;
    assert OutboxOf(s, who).Active(f.pub);
    if s.tickOut.flight.Some? && s.pollOut.flight.Some? {
      TasksAreDisjoint(s, s.tickOut.flight.value.pub, s.pollOut.flight.value.pub);
    }
  }

  lemma DeliverOutboxes(s: State, who: Who)
    requires TickOut(s) && PollOut(s) && OutboxOf(s, who).flight.Some?
    ensures TickOut(DeliverStep(s, who)) && PollOut(DeliverStep(s, who))
  {
    assert forall p :: OutboxOf(DeliverStep(s, who), who).Active(p) ==> OutboxOf(s, who).Active(p);
  }

  lemma DeliverOwners(s: State, who: Who)
    requires Calls(s) && Logs(s) && Flights(s) && OutboxOf(s, who).flight.Some?
    ensures var s' := DeliverStep(s, who); Calls(s') && Logs(s') && Flights(s')
  {
    var f := OutboxOf(s, who).flight.value;
    DeliveryRouting(s.hub, f.owner, Message(f.pub.uuid, f.pub.kind), f.owner);
  }

  lemma DeliverKeepsStreams(s: State, who: Who)
    requires TickOut(s) && PollOut(s) && Flights(s) && Streams(s) && OutboxOf(s, who).flight.Some?
    ensures Streams(DeliverStep(s, who))
  {
    var f := OutboxOf(s, who).flight.value;
    var s' := DeliverStep(s, who);
    FlightFacts(s, who);
    if who.TickTask? {
      DeliverStreams(s.hub, s.log, f, s.pollOut.flight, s.reg);
    } else {
      StreamsSymmetric(s.hub.subscribers, s.log, s.tickOut.flight, s.pollOut.flight, s.reg);
      DeliverStreams(s.hub, s.log, f, s.tickOut.flight, s.reg);
      StreamsSymmetric(s'.hub.subscribers, s.log, None, s.tickOut.flight, s.reg);
    }
  }

  lemma KeepsDeliver(s: State, who: Who)
    requires Inv(s) && OutboxOf(s, who).flight.Some?
    ensures Inv(DeliverStep(s, who))
  {
    DeliverOutboxes(s, who);
    DeliverOwners(s, who);
    DeliverKeepsStreams(s, who);
  }

  // ----- the hub's other operations -----

  lemma PruneOwnersLogs(P: Params, s: State)
    requires Calls(s) && Logs(s)
    ensures var s' := s.(hub := Prune(s.hub, P.ownerTtl, s.now)); Calls(s') && Logs(s')
  {
  }

  lemma KeepsPrune(P: Params, s: State)
    requires Inv(s)
    ensures Inv(s.(hub := Prune(s.hub, P.ownerTtl, s.now)))
  {
    PruneOwnersLogs(P, s);
  }

  lemma EmptyStream(owner: string, log: History, f: Option<Flight>, g: Option<Flight>, reg: map<string, string>)
    ensures StreamOk(Channel([], 0, true), owner, log, f, g, reg)
  {
    assert forall u :: ResultsFor([], u) == [];
  }

  lemma SubscribeStreams(s: State, owner: string)
    requires Streams(s)
    ensures Streams(s.(hub := AddSubscriber(s.hub, owner)))
  {
    EmptyStream(owner, s.log, s.tickOut.flight, s.pollOut.flight, s.reg);
  }

  lemma KeepsSubscribe(s: State, owner: string)
    requires Inv(s)
    ensures Inv(s.(hub := AddSubscriber(s.hub, owner)))
  {
    SubscribeStreams(s, owner);
  }

  lemma StreamUpdate(s: State, owner: string, i: nat, c: Channel)
    requires Streams(s) && owner in s.hub.subscribers && i < |s.hub.subscribers[owner]|
    requires c.sent == s.hub.subscribers[owner][i].sent && c.read <= |c.sent|
    ensures Streams(WithStream(s, owner, i, c))
  {
    var before := s.hub.subscribers[owner][i];
    assert before in s.hub.subscribers[owner];
    assert StreamOk(before, owner, s.log, s.tickOut.flight, s.pollOut.flight, s.reg);
    assert StreamOk(c, owner, s.log, s.tickOut.flight, s.pollOut.flight, s.reg);
  }

  lemma KeepsStreamUpdate(s: State, owner: string, i: nat, c: Channel)
    requires Inv(s) && owner in s.hub.subscribers && i < |s.hub.subscribers[owner]|
    requires c.sent == s.hub.subscribers[owner][i].sent && c.read <= |c.sent|
    ensures Inv(WithStream(s, owner, i, c))
  {
    StreamUpdate(s, owner, i, c);
  }
}
