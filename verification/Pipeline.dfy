/** The result pipeline as a state machine: searcher calls, the auction tick task, the
    tracker's poll task, the prune task and the searchers' streams, interleaved freely.

    Each step is one critical section of the engine. In particular `publish` is two steps,
    because it takes the owner lock and the subscriber lock one after the other. */
module Pipeline {
  import opened Common
  import opened Bundles
  import opened HubSpec
  import opened AuctionSpec
  import opened TrackerSpec

  /** Configuration and the codecs the pipeline does not look into. */
  datatype Params = Params(
    cfg: Config, simulate: bool, track: bool, deadline: nat, ownerTtl: nat,
    score: BundleUuid -> (u64, u64), signatures: BundleUuid -> seq<Signature>)

  /** A `send_bundle` call that has not been counted yet. */
  datatype Call = Call(owner: string, bundle: BundleUuid, registered: bool)

  /** A publication whose owner has been found and which is about to be delivered. */
  datatype Flight = Flight(owner: string, pub: Publication)

  /** What a task still has to publish. */
  datatype Outbox = Outbox(todo: seq<Publication>, flight: Option<Flight>) {
    predicate Idle() { todo == [] && flight.None? }

    predicate Active(p: Publication) {
      p in todo || (flight.Some? && flight.value.pub == p)
    }
  }

  /** Where the auction tick task stands. */
  datatype Tick =
    | Waiting
    | Simulating(queue: seq<string>)
    | Draining(done: seq<PendingBundle>, rest: seq<PendingBundle>, usedCu: u64, winners: seq<BundleUuid>, entered: nat)
    | Handing(left: seq<BundleUuid>)
    | Sending(winner: BundleUuid, left: seq<BundleUuid>)
    | Stopped(left: seq<BundleUuid>)
  {
    function Rest(): seq<PendingBundle> { if Draining? then rest else [] }

    /** Winners that have not been handed to the tracker yet. */
    function Won(): seq<BundleUuid> {
      if Draining? then winners
      else if Handing? || Sending? || Stopped? then left
      else []
    }

    function InSending(): seq<BundleUuid> { if Sending? then [winner] else [] }
  }

  /** Where the poll task stands. */
  datatype Poll = Sleeping | Asking(batch: seq<Signature>)

  /** Which component holds a uuid. */
  datatype Stage = Calling | Counted | Buffered | Ranking | Winning | Tracking | Done

  datatype Who = TickTask | PollTask

  /** A sequence of results for each uuid. */
  type History = map<string, seq<ResultKind>>

  datatype State = State(
    now: nat, hub: Hub,
    calls: map<string, Call>, counted: map<string, BundleUuid>,
    buffer: seq<PendingBundle>, tick: Tick, tickOut: Outbox,
    tracked: seq<Tracked>, poll: Poll, pollOut: Outbox,
    forwarded: seq<BundleUuid>,
    received: nat, won: nat, dropped: int,
    // History: the holder of each issued uuid, the results its holders decided on, the
    // results resolved to its owner, and the owner it was registered to.
    stage: map<string, Stage>, intent: History,
    log: History, reg: map<string, string>)

  function Init(): State {
    State(0, Hub(map[], map[]), map[], map[], [], Waiting, Outbox([], None), [], Sleeping, Outbox([], None),
          [], 0, 0, 0, map[], map[], map[], map[])
  }

  function Of<T>(m: map<string, seq<T>>, u: string): seq<T> {
    if u in m then m[u] else []
  }

  function BundleIds(s: seq<BundleUuid>): seq<string> {
    seq(|s|, i requires 0 <= i < |s| => s[i].uuid)
  }

  function TrackedIds(s: seq<Tracked>): seq<string> {
    seq(|s|, i requires 0 <= i < |s| => s[i].uuid)
  }

  datatype Step =
    | Wait(delay: nat)
    | BeginSend(uuid: string, owner: string, packets: Option<seq<Packet>>)
    | RegisterCall(uuid: string)
    | CountCall(uuid: string)
    | PushCall(uuid: string)
    | StartTick
    | SetSim(outcome: SimOutcome)
    | StartAuction
    | Drain
    | FinishAuction
    | Hand
    | SendOk
    | SendFailed
    | EndTick
    | Ask
    | Answer(reply: Option<seq<Option<Status>>>)
    | ResolveNext(who: Who)
    | DeliverNext(who: Who)
    | PruneOwners
    | Subscribe(owner: string)
    | ReadOne(owner: string, i: nat)
    | CloseStream(owner: string, i: nat)

  function OutboxOf(s: State, who: Who): Outbox {
    if who.TickTask? then s.tickOut else s.pollOut
  }

  function WithOutbox(s: State, who: Who, o: Outbox): State {
    s.(tickOut := if who.TickTask? then o else s.tickOut, pollOut := if who.PollTask? then o else s.pollOut)
  }

  predicate Enabled(s: State, step: Step) {
    match step
    case Wait(_) => true
    case BeginSend(u, _, _) => u !in s.stage
    case RegisterCall(u) => u in s.calls && !s.calls[u].registered
    case CountCall(u) => u in s.calls && s.calls[u].registered
    case PushCall(u) => u in s.counted && !s.tick.Draining?
    case StartTick => s.tick.Waiting?
    case SetSim(_) => s.tick.Simulating? && s.tick.queue != [] && s.tickOut.Idle()
    case StartAuction => s.tick.Simulating? && s.tick.queue == [] && s.tickOut.Idle()
    case Drain => s.tick.Draining? && s.tick.rest != [] && s.tickOut.Idle()
    case FinishAuction => s.tick.Draining? && s.tick.rest == [] && s.tickOut.Idle()
    case Hand => s.tick.Handing? && s.tick.left != []
    case SendOk => s.tick.Sending?
    case SendFailed => s.tick.Sending?
    case EndTick => s.tick.Handing? && s.tick.left == []
    case Ask => s.poll.Sleeping? && s.pollOut.Idle()
    case Answer(_) => s.poll.Asking?
    case ResolveNext(w) => OutboxOf(s, w).flight.None? && OutboxOf(s, w).todo != []
    case DeliverNext(w) => OutboxOf(s, w).flight.Some?
    case PruneOwners => true
    case Subscribe(_) => true
    case ReadOne(o, i) => o in s.hub.subscribers && i < |s.hub.subscribers[o]|
                          && s.hub.subscribers[o][i].open
                          && s.hub.subscribers[o][i].read < |s.hub.subscribers[o][i].sent|
    case CloseStream(o, i) => o in s.hub.subscribers && i < |s.hub.subscribers[o]|
  }

  // ----- searcher calls -----

  /** A fresh uuid is drawn; a request without a bundle goes no further. */
  function BeginSendStep(s: State, u: string, owner: string, packets: Option<seq<Packet>>): State {
    s.(stage := s.stage[u := if packets.None? then Done else Calling],
       intent := s.intent[u := []], log := s.log[u := []],
       calls := if packets.None? then s.calls else s.calls[u := Call(owner, BundleUuid(u, packets), false)])
  }

  function RegisterStep(s: State, u: string): State
    requires u in s.calls
  {
    s.(hub := Register(s.hub, u, s.calls[u].owner, s.now),
       calls := s.calls[u := s.calls[u].(registered := true)],
       reg := s.reg[u := s.calls[u].owner])
  }

  function CountStep(s: State, u: string): State
    requires u in s.calls
  {
    s.(calls := s.calls - {u}, counted := s.counted[u := s.calls[u].bundle],
       received := s.received + 1, stage := s.stage[u := Counted])
  }

  function PushStep(P: Params, s: State, u: string): State
    requires u in s.counted
  {
    var (tip, cu) := P.score(s.counted[u]);
    s.(counted := s.counted - {u}, stage := s.stage[u := Buffered],
       buffer := s.buffer + [PendingBundle(s.counted[u], tip, cu, s.now, None)])
  }

  // ----- the tick task -----

  function StartTickStep(P: Params, s: State): State {
    s.(tick := Simulating(if P.simulate then Uuids(Filter(s.buffer, UnsimulatedTest())) else []))
  }

  function SetSimStep(s: State, outcome: SimOutcome): State
    requires s.tick.Simulating? && s.tick.queue != []
  {
    var u := s.tick.queue[0];
    s.(buffer := WithSimulation(s.buffer, u, outcome), tick := Simulating(s.tick.queue[1..]),
       tickOut := if outcome.ok then s.tickOut else Outbox([Publication(u, SimFailure)], None),
       intent := if outcome.ok then s.intent else s.intent[u := Of(s.intent, u) + [SimFailure]])
  }

  /** Take the buffer lock, drop expired and failed bundles, rank the rest. */
  function StartAuctionStep(P: Params, s: State): State {
    var ranked := Ranked(s.buffer, P.cfg, s.now);
    s.(tick := Draining([], ranked, 0, [], |s.buffer|), buffer := [],
       stage := Settle(s.stage, Buffered, Uuids(ranked), Ranking))
  }

  /** Everything at stage `from` moves on: the members of `kept` to `to`, the others are done. */
  function Settle(stage: map<string, Stage>, from: Stage, kept: seq<string>, to: Stage): map<string, Stage> {
    map u | u in stage :: if stage[u] != from then stage[u] else if u in kept then to else Done
  }

  /** The result the drain loop decides on for its next bundle. */
  function DrainKind(P: Params, s: State): ResultKind
    requires s.tick.Draining? && s.tick.rest != []
  {
    var b := s.tick.rest[0];
    if Fits(s.tick.usedCu, b, P.cfg.budget) then Accepted(0) else LostAuction(b.tip)
  }

  /** One iteration of the drain loop, up to the call of `publish`. */
  function DrainStep(P: Params, s: State): State
    requires s.tick.Draining? && s.tick.rest != []
  {
    var b := s.tick.rest[0];
    var u := b.bundle.uuid;
    var k := DrainKind(P, s);
    s.(tick := Draining(s.tick.done + [b], s.tick.rest[1..],
                        if k.Accepted? then WrapAdd(s.tick.usedCu, b.Cu()) else s.tick.usedCu,
                        if k.Accepted? then s.tick.winners + [b.bundle] else s.tick.winners,
                        s.tick.entered),
       stage := s.stage[u := if k.Accepted? then Winning else Done],
       tickOut := Outbox([Publication(u, k)], None),
       intent := s.intent[u := Of(s.intent, u) + [k]])
  }

  function FinishAuctionStep(s: State): State
    requires s.tick.Draining?
  {
    s.(tick := Handing(s.tick.winners), won := s.won + |s.tick.winners|,
       dropped := s.dropped + (s.tick.entered - |s.tick.winners|))
  }

  /** `track` the next winner, when there is a tracker and the winner has signatures. */
  function HandStep(P: Params, s: State): State
    requires s.tick.Handing? && s.tick.left != []
  {
    var w := s.tick.left[0];
    var sigs := P.signatures(w);
    var tracks := P.track && sigs != [];
    s.(tick := Sending(w, s.tick.left[1..]),
       tracked := if tracks then s.tracked + [Tracked(w.uuid, sigs, s.now, false)] else s.tracked,
       stage := s.stage[w.uuid := if tracks then Tracking else Done])
  }

  // ----- the poll task -----

  /** Nothing to ask about means that the poll is over. */
  function AskStep(s: State): State {
    s.(poll := if Batch(s.tracked) == [] then Sleeping else Asking(Batch(s.tracked)))
  }

  function AnswerStep(P: Params, s: State, reply: Option<seq<Option<Status>>>): State
    requires s.poll.Asking?
  {
    if reply.None? then s.(poll := Sleeping)
    else
      var j := JudgeBy(Evidence(Known(s.poll.batch, reply.value), s.now, P.deadline));
      var left := Remaining(s.tracked, j);
      var pubs := Publications(s.tracked, j);
      s.(poll := Sleeping, tracked := left, pollOut := Outbox(pubs, None),
         intent := Announce(s.intent, pubs),
         stage := Settle(s.stage, Tracking, TrackedIds(left), Tracking))
  }

  /** Append each publication to its uuid's history. */
  function Announce(intent: History, pubs: seq<Publication>): History {
    if pubs == [] then intent
    else
      var before := Announce(intent, pubs[..|pubs| - 1]);
      var p := pubs[|pubs| - 1];
      before[p.uuid := Of(before, p.uuid) + [p.kind]]
  }

  // ----- publishing -----

  function ResolveStep(s: State, who: Who): State
    requires OutboxOf(s, who).todo != []
  {
    var o := OutboxOf(s, who);
    var p := o.todo[0];
    var (hub, owner) := Resolve(s.hub, p);
    WithOutbox(s, who, Outbox(o.todo[1..], if owner.None? then None else Some(Flight(owner.value, p))))
      .(hub := hub, log := if owner.None? then s.log else s.log[p.uuid := Of(s.log, p.uuid) + [p.kind]])
  }

  function DeliverStep(s: State, who: Who): State
    requires OutboxOf(s, who).flight.Some?
  {
    var o := OutboxOf(s, who);
    var f := o.flight.value;
    WithOutbox(s, who, Outbox(o.todo, None))
      .(hub := Deliver(s.hub, f.owner, Message(f.pub.uuid, f.pub.kind)))
  }

  function WithStream(s: State, owner: string, i: nat, c: Channel): State
    requires owner in s.hub.subscribers && i < |s.hub.subscribers[owner]|
  {
    s.(hub := s.hub.(subscribers := s.hub.subscribers[owner := s.hub.subscribers[owner][i := c]]))
  }

  function ReadStep(s: State, owner: string, i: nat): State
    requires owner in s.hub.subscribers && i < |s.hub.subscribers[owner]|
  {
    WithStream(s, owner, i, s.hub.subscribers[owner][i].(read := s.hub.subscribers[owner][i].read + 1))
  }

  function CloseStep(s: State, owner: string, i: nat): State
    requires owner in s.hub.subscribers && i < |s.hub.subscribers[owner]|
  {
    WithStream(s, owner, i, s.hub.subscribers[owner][i].(open := false))
  }

  function Next(P: Params, s: State, step: Step): State
    requires Enabled(s, step)
  {
    match step
    case Wait(d) => s.(now := s.now + d)
    case BeginSend(u, owner, packets) => BeginSendStep(s, u, owner, packets)
    case RegisterCall(u) => RegisterStep(s, u)
    case CountCall(u) => CountStep(s, u)
    case PushCall(u) => PushStep(P, s, u)
    case StartTick => StartTickStep(P, s)
    case SetSim(outcome) => SetSimStep(s, outcome)
    case StartAuction => StartAuctionStep(P, s)
    case Drain => DrainStep(P, s)
    case FinishAuction => FinishAuctionStep(s)
    case Hand => HandStep(P, s)
    case SendOk => s.(tick := Handing(s.tick.left), forwarded := s.forwarded + [s.tick.winner])
    case SendFailed => s.(tick := Stopped(s.tick.left))
    case EndTick => s.(tick := Waiting)
    case Ask => AskStep(s)
    case Answer(reply) => AnswerStep(P, s, reply)
    case ResolveNext(who) => ResolveStep(s, who)
    case DeliverNext(who) => DeliverStep(s, who)
    case PruneOwners => s.(hub := Prune(s.hub, P.ownerTtl, s.now))
    case Subscribe(owner) => s.(hub := AddSubscriber(s.hub, owner))
    case ReadOne(o, i) => ReadStep(s, o, i)
    case CloseStream(o, i) => CloseStep(s, o, i)
  }

  /** A run: every step is enabled where it is taken. */
  ghost predicate IsRun(P: Params, states: seq<State>, steps: seq<Step>) {
    && |states| == |steps| + 1
    && states[0] == Init()
    && forall i :: 0 <= i < |steps| ==> Enabled(states[i], steps[i]) && states[i + 1] == Next(P, states[i], steps[i])
  }
}
