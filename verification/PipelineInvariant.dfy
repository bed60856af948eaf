/** What every reachable state of the pipeline satisfies, component by component. */
module PipelineInvariant {
  import opened Common
  import opened Bundles
  import opened HubSpec
  import opened AuctionSpec
  import opened TrackerSpec
  import opened Pipeline

  // ----- who holds a uuid -----

  predicate IsAt(stage: map<string, Stage>, u: string, x: Stage) {
    u in stage && stage[u] == x
  }

  /** The list names exactly the uuids at stage `x`, each once. */
  ghost predicate Holds(l: seq<string>, stage: map<string, Stage>, x: Stage) {
    Distinct(l) && forall u :: u in l <==> IsAt(stage, u, x)
  }

  ghost predicate HoldsSet(s: set<string>, stage: map<string, Stage>, x: Stage) {
    forall u :: u in s <==> IsAt(stage, u, x)
  }

  /** Each component holds exactly the uuids at its stage. */
  ghost predicate PlacesOk(
    stage: map<string, Stage>, calls: set<string>, counted: set<string>,
    buffer: seq<string>, ranking: seq<string>, winning: seq<string>, tracking: seq<string>)
  {
    && HoldsSet(calls, stage, Calling)
    && HoldsSet(counted, stage, Counted)
    && Holds(buffer, stage, Buffered)
    && Holds(ranking, stage, Ranking)
    && Holds(winning, stage, Winning)
    && Holds(tracking, stage, Tracking)
  }

  ghost predicate Places(s: State) {
    PlacesOk(s.stage, s.calls.Keys, s.counted.Keys, Uuids(s.buffer), Uuids(s.tick.Rest()),
             BundleIds(s.tick.Won()), TrackedIds(s.tracked))
  }

  /** A call carries its own uuid and, once registered, its owner is on record. */
  ghost predicate CallsOk(
    calls: map<string, Call>, counted: map<string, BundleUuid>, reg: map<string, string>, owners: map<string, Owner>)
  {
    && (forall u :: u in calls ==>
          calls[u].bundle.uuid == u
          && (calls[u].registered <==> u in reg) && (!calls[u].registered ==> u !in owners))
    && (forall u :: u in counted ==> counted[u].uuid == u)
  }

  // ----- what the holders decided -----

  /** Prefixes of `Rejected` and of `Accepted Processed? (Finalized | Dropped)`. */
  predicate Lifecycle(w: seq<ResultKind>) {
    || w == []
    || (|w| == 1 && (w[0].Rejected() || w[0].Accepted?))
    || (|w| == 2 && w[0].Accepted? && (w[1].Processed? || w[1].Finalized? || w[1].Dropped?))
    || (|w| == 3 && w[0].Accepted? && w[1].Processed? && (w[2].Finalized? || w[2].Dropped?))
  }

  predicate StageAllows(stage: Stage, w: seq<ResultKind>) {
    match stage
    case Calling => w == []
    case Counted => w == []
    case Buffered => w == [] || w == [SimFailure]
    case Ranking => w == []
    case Winning => w == [Accepted(0)]
    case Tracking => w == [Accepted(0)] || (|w| == 2 && w[0] == Accepted(0) && w[1].Processed?)
    case Done => Lifecycle(w)
  }

  ghost predicate IntentsOk(
    stage: map<string, Stage>, intent: History, buffer: seq<PendingBundle>, tracked: seq<Tracked>)
  {
    && intent.Keys == stage.Keys
    && (forall u :: u in stage ==> StageAllows(stage[u], intent[u]))
    && (forall b :: b in buffer ==>
          (Of(intent, b.bundle.uuid) == if b.FailedSimulation() then [SimFailure] else []))
    && (forall t :: t in tracked ==> |Of(intent, t.uuid)| == if t.processedEmitted then 2 else 1)
  }

  /** The bundles still to be simulated are buffered and have not been simulated. */
  ghost predicate QueueOk(tick: Tick, buffer: seq<PendingBundle>) {
    tick.Simulating? ==>
      Distinct(tick.queue)
      && forall u :: u in tick.queue ==> exists b :: b in buffer && b.bundle.uuid == u && b.sim.None?
  }

  // ----- what is being published -----

  ghost predicate TickOutOk(out: Outbox, tick: Tick, stage: map<string, Stage>, intent: History) {
    && |out.todo| + (if out.flight.Some? then 1 else 0) <= 1
    && (!tick.Simulating? && !tick.Draining? ==> out.Idle())
    && forall p :: out.Active(p) ==>
         p.uuid in stage && stage[p.uuid] != Tracking && Of(intent, p.uuid) == [p.kind]
  }

  ghost predicate PollOutOk(out: Outbox, poll: Poll, intent: History) {
    && (poll.Asking? ==> out.Idle())
    && DistinctTargets(out.todo)
    && (out.flight.Some? ==> forall p :: p in out.todo ==> p.uuid != out.flight.value.pub.uuid)
    && forall p :: out.Active(p) ==>
         |Of(intent, p.uuid)| >= 2 && Of(intent, p.uuid)[|Of(intent, p.uuid)| - 1] == p.kind
  }

  ghost predicate InTodo(a: seq<Publication>, b: seq<Publication>, u: string) {
    exists p :: (p in a || p in b) && p.uuid == u
  }

  /** The resolved results are a prefix of the decided ones; while the owner is on
      record, nothing but the publication still to do is missing. */
  ghost predicate LogsOk(
    log: History, intent: History, owners: map<string, Owner>,
    reg: map<string, string>, a: seq<Publication>, b: seq<Publication>)
  {
    && log.Keys == intent.Keys
    && reg.Keys <= log.Keys
    && (forall u :: u in log ==> log[u] <= intent[u])
    && (forall u :: u in owners ==>
          && u in log && u in reg && reg[u] == owners[u].pubkey
          && log[u] == if InTodo(a, b, u) && intent[u] != [] then intent[u][..|intent[u]| - 1] else intent[u])
  }

  ghost predicate FlightOk(
    f: Option<Flight>, log: History, intent: History, reg: map<string, string>)
  {
    f.Some? ==>
      var u := f.value.pub.uuid;
      u in log && u in reg && reg[u] == f.value.owner && log[u] == Of(intent, u)
  }

  // ----- what the searchers see -----

  function TargetTest(u: string): Message -> bool { (m: Message) => m.bundleId == u }

  /** The results a stream holds for one bundle, in order. */
  function ResultsFor(sent: seq<Message>, u: string): seq<ResultKind> {
    var ms := Filter(sent, TargetTest(u));
    seq(|ms|, i requires 0 <= i < |ms| => ms[i].result)
  }

  predicate Flying(f: Option<Flight>, u: string) {
    f.Some? && f.value.pub.uuid == u
  }

  /** The resolved results that have been offered to the streams. */
  function Offered(log: History, f: Option<Flight>, g: Option<Flight>, u: string): seq<ResultKind> {
    var w := Of(log, u);
    if (Flying(f, u) || Flying(g, u)) && w != [] then w[..|w| - 1] else w
  }

  /** A searcher's stream carries only its own bundles, each bundle's results in order. */
  ghost predicate StreamOk(
    c: Channel, owner: string, log: History, f: Option<Flight>, g: Option<Flight>, reg: map<string, string>)
  {
    && c.read <= |c.sent|
    && (forall m :: m in c.sent ==> m.bundleId in reg && reg[m.bundleId] == owner)
    && (forall u :: Subsequence(ResultsFor(c.sent, u), Offered(log, f, g, u)))
  }

  ghost predicate StreamsOk(
    subs: map<string, seq<Channel>>, log: History, f: Option<Flight>, g: Option<Flight>,
    reg: map<string, string>)
  {
    forall o, c :: o in subs && c in subs[o] ==> StreamOk(c, o, log, f, g, reg)
  }

  // ----- forwarding and counting -----

  ghost predicate ForwardedOk(forwarded: seq<string>, stage: map<string, Stage>, intent: History) {
    && Distinct(forwarded)
    && forall u :: u in forwarded ==>
         u in stage && (stage[u] == Tracking || stage[u] == Done) && Of(intent, u) != [] && intent[u][0] == Accepted(0)
  }

  ghost predicate CountsOk(s: State) {
    && s.received == s.won + s.dropped + |s.buffer| + |s.counted| + (if s.tick.Draining? then s.tick.entered else 0)
    && (s.tick.Draining? ==> |s.tick.winners| + |s.tick.rest| <= s.tick.entered)
    && s.dropped >= 0
  }

  // ----- the invariant -----

  ghost predicate Calls(s: State) { CallsOk(s.calls, s.counted, s.reg, s.hub.owners) }

  ghost predicate Intents(s: State) { IntentsOk(s.stage, s.intent, s.buffer, s.tracked) }

  ghost predicate Queue(s: State) { QueueOk(s.tick, s.buffer) }

  ghost predicate Forwards(s: State) {
    ForwardedOk(BundleIds(s.forwarded + s.tick.InSending()), s.stage, s.intent)
  }

  ghost predicate TickOut(s: State) { TickOutOk(s.tickOut, s.tick, s.stage, s.intent) }

  ghost predicate PollOut(s: State) { PollOutOk(s.pollOut, s.poll, s.intent) }

  ghost predicate Logs(s: State) {
    LogsOk(s.log, s.intent, s.hub.owners, s.reg, s.tickOut.todo, s.pollOut.todo)
  }

  ghost predicate Flights(s: State) {
    && FlightOk(s.tickOut.flight, s.log, s.intent, s.reg)
    && FlightOk(s.pollOut.flight, s.log, s.intent, s.reg)
  }

  ghost predicate Streams(s: State) {
    StreamsOk(s.hub.subscribers, s.log, s.tickOut.flight, s.pollOut.flight, s.reg)
  }

  ghost predicate Inv(s: State) {
    && Places(s) && Calls(s) && Intents(s) && Queue(s) && Forwards(s)
    && TickOut(s) && PollOut(s) && Logs(s) && Flights(s)
    && Streams(s) && CountsOk(s)
  }
}
