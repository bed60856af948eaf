/** The pipeline and a bundle lane run together: what validators see of the auction's
    winners. Handing a winner over puts it in front of the channel, and the send succeeds
    in the very step that puts it into the channel. */
module EndToEnd {
  import opened Common
  import opened Bundles
  import opened Pipeline
  import opened PipelineInvariant
  import opened PipelineTheorems
  import opened PipelineFrames
  import Forwarding
  import ForwardingTheorems

  type BundleItem = Forwarding.Item<BundleUuid>
  type BundleLane = Forwarding.Lane<BundleUuid>

  /** The auction tick as a producer of the lane. */
  const AUCTION: Forwarding.Producer := "auction"

  datatype Joint = Joint(engine: State, lane: BundleLane)

  datatype JointStep =
    | EngineStep(step: Step)
    | LaneStep(move: Forwarding.Step<BundleUuid>)
    | HandOver
    | HandedOver

  /** Steps of the lane in which the auction has no part. */
  predicate Foreign(move: Forwarding.Step<BundleUuid>) {
    !(move.Receive? && move.producer == AUCTION) && !(move.Enqueue? && move.producer == AUCTION)
  }

  function WinnerMove(s: State): Forwarding.Step<BundleUuid>
    requires Enabled(s, Hand)
  {
    Forwarding.Receive(AUCTION, s.tick.left[0], 0)
  }

  predicate JointEnabled(j: Joint, step: JointStep) {
    match step
    case EngineStep(e) => Enabled(j.engine, e) && !e.Hand? && !e.SendOk?
    case LaneStep(move) => Forwarding.Enabled(j.lane, move) && Foreign(move)
    case HandOver => Enabled(j.engine, Hand) && Forwarding.Enabled(j.lane, WinnerMove(j.engine))
    case HandedOver => Enabled(j.engine, SendOk) && Forwarding.Enabled(j.lane, Forwarding.Enqueue(AUCTION))
  }

  function JointNext(P: Params, j: Joint, step: JointStep): Joint
    requires JointEnabled(j, step)
  {
    match step
    case EngineStep(e) => j.(engine := Next(P, j.engine, e))
    case LaneStep(move) => j.(lane := Forwarding.Next(j.lane, move))
    case HandOver => Joint(Next(P, j.engine, Hand), Forwarding.Next(j.lane, WinnerMove(j.engine)))
    case HandedOver => Joint(Next(P, j.engine, SendOk), Forwarding.Next(j.lane, Forwarding.Enqueue(AUCTION)))
  }

  ghost predicate IsJointRun(P: Params, joints: seq<Joint>, steps: seq<JointStep>) {
    && |joints| == |steps| + 1
    && joints[0] == Joint(Init(), Forwarding.Init(joints[0].lane.upcoming))
    && forall i :: 0 <= i < |steps| ==>
         JointEnabled(joints[i], steps[i]) && joints[i + 1] == JointNext(P, joints[i], steps[i])
  }

  // ----- the coupling -----

  function PayloadOf(): BundleItem -> BundleUuid { (x: BundleItem) => x.payload }

  function IdOf(): BundleUuid -> string { (b: BundleUuid) => b.uuid }

  /** What the auction has put into the channel, in order. */
  function Channelled(lane: BundleLane): seq<BundleUuid> {
    Map(Forwarding.From(lane.dequeued + lane.queue, AUCTION), PayloadOf())
  }

  /** The channel holds what the tick task has sent, and the winner being sent waits in
      front of it. */
  ghost predicate Coupled(tick: Tick, forwarded: seq<BundleUuid>, lane: BundleLane) {
    && Channelled(lane) == forwarded
    && (tick.Sending? ==> AUCTION in lane.pending && lane.pending[AUCTION].payload == tick.winner)
    && (AUCTION in lane.pending ==> tick.Sending? || tick.Stopped?)
  }

  ghost predicate JointCoupled(j: Joint) {
    Coupled(j.engine.tick, j.engine.forwarded, j.lane)
  }

  /** `s'` has the same winner in hand as `s`, or has given up sending. */
  ghost predicate SameWinner(s: State, s': State) {
    && s'.forwarded == s.forwarded
    && (s'.tick.Sending? ==> s'.tick == s.tick)
    && (s.tick.Sending? || s.tick.Stopped? ==> s'.tick.Sending? || s'.tick.Stopped?)
  }

  lemma TickKeepsWinner(P: Params, s: State, step: Step)
    requires Enabled(s, step) && OfTick(step) && !step.Hand? && !step.SendOk?
    ensures SameWinner(s, Next(P, s, step))
  {
    match step
    case StartTick =>
    case SetSim(outcome) => assert SameWinner(s, SetSimStep(s, outcome));
    case StartAuction => assert SameWinner(s, StartAuctionStep(P, s));
    case Drain => assert SameWinner(s, DrainStep(P, s));
    case FinishAuction => assert SameWinner(s, FinishAuctionStep(s));
    case SendFailed =>
    case EndTick =>
  }

  /** Steps of the engine other than handing over and sending leave the winner in hand. */
  lemma EngineKeepsWinner(P: Params, s: State, step: Step)
    requires Enabled(s, step) && !step.Hand? && !step.SendOk?
    ensures SameWinner(s, Next(P, s, step))
  {
    if OfTick(step) {
      TickKeepsWinner(P, s, step);
    } else {
      TickFrame(P, s, step);
    }
  }

  lemma ForeignLane(lane: BundleLane, move: Forwarding.Step<BundleUuid>)
    requires Forwarding.Enabled(lane, move) && Foreign(move)
    requires Forwarding.ChannelOk(lane.made, lane.dequeued + lane.queue, lane.pending)
    ensures var lane' := Forwarding.Next(lane, move);
      && Forwarding.From(lane'.dequeued + lane'.queue, AUCTION) == Forwarding.From(lane.dequeued + lane.queue, AUCTION)
      && (AUCTION in lane'.pending <==> AUCTION in lane.pending)
      && (AUCTION in lane.pending ==> lane'.pending[AUCTION] == lane.pending[AUCTION])
  {
    if move.Dequeue? {
      Forwarding.QueueHead(lane);
    } else if move.Enqueue? {
      EnqueueGrows(lane, move.producer);
    }
  }

  lemma EnqueueGrows(lane: BundleLane, p: Forwarding.Producer)
    requires p in lane.pending && lane.pending[p].producer == p
    ensures var lane' := Forwarding.EnqueueStep(lane, p);
      var before := Forwarding.From(lane.dequeued + lane.queue, AUCTION);
      Forwarding.From(lane'.dequeued + lane'.queue, AUCTION)
      == if p == AUCTION then before + [lane.pending[p]] else before
  {
    var x := lane.pending[p];
    Forwarding.FromAppend(lane.dequeued + lane.queue, x, AUCTION);
    assert lane.dequeued + (lane.queue + [x]) == lane.dequeued + lane.queue + [x];
  }

  lemma LaneKeepsCoupling(tick: Tick, forwarded: seq<BundleUuid>, lane: BundleLane, move: Forwarding.Step<BundleUuid>)
    requires Forwarding.Enabled(lane, move) && Foreign(move)
    requires Forwarding.ChannelOk(lane.made, lane.dequeued + lane.queue, lane.pending)
    requires Coupled(tick, forwarded, lane)
    ensures Coupled(tick, forwarded, Forwarding.Next(lane, move))
  {
    ForeignLane(lane, move);
  }

  lemma HandOverKeepsCoupling(P: Params, s: State, lane: BundleLane)
    requires Enabled(s, Hand) && AUCTION !in lane.pending && Coupled(s.tick, s.forwarded, lane)
    ensures Coupled(HandStep(P, s).tick, HandStep(P, s).forwarded,
                    Forwarding.ReceiveStep(lane, AUCTION, s.tick.left[0], 0))
  {
  }

  lemma HandedOverKeepsCoupling(tick: Tick, forwarded: seq<BundleUuid>, lane: BundleLane)
    requires tick.Sending? && Coupled(tick, forwarded, lane) && lane.pending[AUCTION].producer == AUCTION
    ensures Coupled(Handing(tick.left), forwarded + [tick.winner], Forwarding.EnqueueStep(lane, AUCTION))
  {
    EnqueueGrows(lane, AUCTION);
    var before := Forwarding.From(lane.dequeued + lane.queue, AUCTION);
    assert Map(before + [lane.pending[AUCTION]], PayloadOf()) == Map(before, PayloadOf()) + [tick.winner];
  }

  lemma EngineCoupled(P: Params, j: Joint, e: Step)
    requires JointCoupled(j) && JointEnabled(j, EngineStep(e))
    ensures JointCoupled(JointNext(P, j, EngineStep(e)))
  {
    EngineKeepsWinner(P, j.engine, e);
  }

  lemma LaneCoupled(P: Params, j: Joint, move: Forwarding.Step<BundleUuid>)
    requires JointCoupled(j) && JointEnabled(j, LaneStep(move))
    requires Forwarding.ChannelOk(j.lane.made, j.lane.dequeued + j.lane.queue, j.lane.pending)
    ensures JointCoupled(JointNext(P, j, LaneStep(move)))
  {
    LaneKeepsCoupling(j.engine.tick, j.engine.forwarded, j.lane, move);
  }

  lemma HandOverCoupled(P: Params, j: Joint)
    requires JointCoupled(j) && JointEnabled(j, HandOver)
    ensures JointCoupled(JointNext(P, j, HandOver))
  {
    HandOverKeepsCoupling(P, j.engine, j.lane);
  }

  lemma HandedOverCoupled(P: Params, j: Joint)
    requires JointCoupled(j) && JointEnabled(j, HandedOver) && j.lane.pending[AUCTION].producer == AUCTION
    ensures JointCoupled(JointNext(P, j, HandedOver))
  {
    HandedOverKeepsCoupling(j.engine.tick, j.engine.forwarded, j.lane);
  }

  lemma JointStepCoupled(P: Params, j: Joint, step: JointStep)
    requires JointCoupled(j) && JointEnabled(j, step)
    requires Forwarding.ChannelOk(j.lane.made, j.lane.dequeued + j.lane.queue, j.lane.pending)
    ensures JointCoupled(JointNext(P, j, step))
  {
    match step
    case EngineStep(e) => EngineCoupled(P, j, e);
    case LaneStep(move) => LaneCoupled(P, j, move);
    case HandOver => HandOverCoupled(P, j);
    case HandedOver => HandedOverCoupled(P, j);
  }

  // ----- each side of a joint run is a run of its own -----

  function EngineMove(step: JointStep): Option<Step> {
    match step
    case EngineStep(e) => Some(e)
    case LaneStep(_) => None
    case HandOver => Some(Hand)
    case HandedOver => Some(SendOk)
  }

  lemma EngineProjects(P: Params, j: Joint, step: JointStep)
    requires JointEnabled(j, step)
    ensures EngineMove(step).None? ==> JointNext(P, j, step).engine == j.engine
    ensures EngineMove(step).Some? ==>
      Enabled(j.engine, EngineMove(step).value)
      && JointNext(P, j, step).engine == Next(P, j.engine, EngineMove(step).value)
  {
  }

  function LaneMove(j: Joint, step: JointStep): Option<Forwarding.Step<BundleUuid>>
    requires JointEnabled(j, step)
  {
    match step
    case EngineStep(_) => None
    case LaneStep(move) => Some(move)
    case HandOver => Some(WinnerMove(j.engine))
    case HandedOver => Some(Forwarding.Enqueue(AUCTION))
  }

  lemma LaneProjects(P: Params, j: Joint, step: JointStep)
    requires JointEnabled(j, step)
    ensures LaneMove(j, step).None? ==> JointNext(P, j, step).lane == j.lane
    ensures LaneMove(j, step).Some? ==>
      Forwarding.Enabled(j.lane, LaneMove(j, step).value)
      && JointNext(P, j, step).lane == Forwarding.Next(j.lane, LaneMove(j, step).value)
  {
  }

  lemma {:induction false} EngineRunInv(P: Params, joints: seq<Joint>, steps: seq<JointStep>, i: nat)
    requires IsJointRun(P, joints, steps) && i < |joints|
    ensures Inv(joints[i].engine)
  {
    if i == 0 {
      InitInv();
    } else {
      EngineRunInv(P, joints, steps, i - 1);
      EngineKeepsInv(P, joints[i - 1], steps[i - 1]);
    }
  }

  lemma EngineKeepsInv(P: Params, j: Joint, step: JointStep)
    requires Inv(j.engine) && JointEnabled(j, step)
    ensures Inv(JointNext(P, j, step).engine)
  {
    EngineProjects(P, j, step);
    if EngineMove(step).Some? {
      StepInv(P, j.engine, EngineMove(step).value);
    }
  }

  lemma {:induction false} LaneRunInv(P: Params, joints: seq<Joint>, steps: seq<JointStep>, i: nat)
    requires IsJointRun(P, joints, steps) && i < |joints|
    ensures Forwarding.Inv(joints[i].lane)
  {
    if i == 0 {
      Forwarding.InitInv<BundleUuid>(joints[0].lane.upcoming);
    } else {
      LaneRunInv(P, joints, steps, i - 1);
      LaneKeepsInv(P, joints[i - 1], steps[i - 1]);
    }
  }

  lemma LaneKeepsInv(P: Params, j: Joint, step: JointStep)
    requires Forwarding.Inv(j.lane) && JointEnabled(j, step)
    ensures Forwarding.Inv(JointNext(P, j, step).lane)
  {
    LaneProjects(P, j, step);
    if LaneMove(j, step).Some? {
      Forwarding.StepInv(j.lane, LaneMove(j, step).value);
    }
  }

  lemma CoupledInit(upcoming: Option<set<string>>)
    ensures Coupled(Waiting, [], Forwarding.Init(upcoming))
  {
  }

  lemma {:induction false} RunCoupled(P: Params, joints: seq<Joint>, steps: seq<JointStep>, i: nat)
    requires IsJointRun(P, joints, steps) && i < |joints|
    ensures JointCoupled(joints[i])
  {
    if i == 0 {
      CoupledInit(joints[0].lane.upcoming);
    } else {
      RunCoupled(P, joints, steps, i - 1);
      RunStepCoupled(P, joints, steps, i - 1);
    }
  }

  lemma RunStepCoupled(P: Params, joints: seq<Joint>, steps: seq<JointStep>, i: nat)
    requires IsJointRun(P, joints, steps) && i < |steps| && JointCoupled(joints[i])
    ensures JointCoupled(joints[i + 1])
  {
    LaneRunInv(P, joints, steps, i);
    JointStepCoupled(P, joints[i], steps[i]);
  }

  // ----- what validators see -----

  lemma CoupledWaits(j: Joint)
    requires JointCoupled(j)
    ensures Enabled(j.engine, Hand) <==> JointEnabled(j, HandOver)
    ensures j.engine.tick.Sending? && |j.lane.queue| < Forwarding.CHANNEL_CAPACITY <==> JointEnabled(j, HandedOver)
  {
  }

  /** Joining the two machines holds nobody up: whenever the tick task can hand a winner
      over, the lane can take it, and a winner in hand enters the channel as soon as there
      is room. */
  lemma NobodyWaits(P: Params, joints: seq<Joint>, steps: seq<JointStep>, i: nat)
    requires IsJointRun(P, joints, steps) && i < |joints|
    ensures Enabled(joints[i].engine, Hand) <==> JointEnabled(joints[i], HandOver)
    ensures joints[i].engine.tick.Sending? && |joints[i].lane.queue| < 100
       <==> JointEnabled(joints[i], HandedOver)
  {
    RunCoupled(P, joints, steps, i);
    CoupledWaits(joints[i]);
  }

  lemma ShownIsForwarded(forwarded: seq<BundleUuid>, lane: BundleLane, u: string)
    requires Forwarding.Inv(lane) && u in lane.subs && Channelled(lane) == forwarded && Distinct(BundleIds(forwarded))
    ensures var shown := Map(Forwarding.From(lane.subs[u].stream.sent, AUCTION), PayloadOf());
      Subsequence(shown, forwarded) && Distinct(BundleIds(shown))
  {
    var items := Forwarding.From(lane.subs[u].stream.sent, AUCTION);
    var channel := Forwarding.From(lane.dequeued + lane.queue, AUCTION);
    ForwardingTheorems.StreamWithinChannel(lane, u, AUCTION);
    SubsequenceMap(items, channel, PayloadOf());
    var shown := Map(items, PayloadOf());
    SubsequenceMap(shown, forwarded, IdOf());
    assert Map(shown, IdOf()) == BundleIds(shown) && Map(forwarded, IdOf()) == BundleIds(forwarded);
    SubsequenceDistinct(BundleIds(shown), BundleIds(forwarded));
  }

  /** In every joint run, each validator's stream shows an in-order part of the bundles the
      auction forwarded, no bundle twice, and each of them was accepted by the auction. */
  lemma WinnersArriveOnce(P: Params, joints: seq<Joint>, steps: seq<JointStep>, i: nat, u: string)
    requires IsJointRun(P, joints, steps) && i < |joints| && u in joints[i].lane.subs
    ensures var shown := Map(Forwarding.From(joints[i].lane.subs[u].stream.sent, AUCTION), PayloadOf());
      && Subsequence(shown, joints[i].engine.forwarded) && Distinct(BundleIds(shown))
      && forall b :: b in shown ==>
           Of(joints[i].engine.intent, b.uuid) != [] && Of(joints[i].engine.intent, b.uuid)[0] == Accepted(0)
  {
    EngineRunInv(P, joints, steps, i);
    LaneRunInv(P, joints, steps, i);
    RunCoupled(P, joints, steps, i);
    WinnersShown(joints[i], u);
  }

  lemma WinnersShown(j: Joint, u: string)
    requires Forwards(j.engine) && Forwarding.Inv(j.lane) && JointCoupled(j) && u in j.lane.subs
    ensures var shown := Map(Forwarding.From(j.lane.subs[u].stream.sent, AUCTION), PayloadOf());
      && Subsequence(shown, j.engine.forwarded) && Distinct(BundleIds(shown))
      && forall b :: b in shown ==>
           Of(j.engine.intent, b.uuid) != [] && Of(j.engine.intent, b.uuid)[0] == Accepted(0)
  {
    var s, lane := j.engine, j.lane;
    ForwardedIsDistinct(s);
    ShownIsForwarded(s.forwarded, lane, u);
    var shown := Map(Forwarding.From(lane.subs[u].stream.sent, AUCTION), PayloadOf());
    forall b | b in shown ensures Of(s.intent, b.uuid) != [] && Of(s.intent, b.uuid)[0] == Accepted(0) {
      SubsequenceMember(shown, s.forwarded, b);
      var k :| 0 <= k < |s.forwarded| && s.forwarded[k] == b;
      assert BundleIds(s.forwarded)[k] == b.uuid;
      ForwardedIsAccepted(s, b.uuid);
    }
  }
}
