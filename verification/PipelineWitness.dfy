/** One concrete run, for any bundle that fits the budget: it arrives during the simulation
    pass, wins without having been simulated, is reported as accepted, and its send fails. */
module PipelineWitness {
  import opened Common
  import opened Bundles
  import opened HubSpec
  import opened StableSort
  import opened AuctionSpec
  import opened TrackerSpec
  import opened Pipeline
  import opened PipelineAcceptance

  /** The bundle of the run, its searcher, and how it is scored. */
  datatype Bid = Bid(uuid: string, owner: string, packets: seq<Packet>) {
    function Bundle(): BundleUuid { BundleUuid(uuid, Some(packets)) }

    function Pending(P: Params): PendingBundle {
      var (tip, cu) := P.score(Bundle());
      PendingBundle(Bundle(), tip, cu, 0, None)
    }

    /** It fits an empty block and does not expire on arrival. */
    predicate Fit(P: Params) {
      P.score(Bundle()).1 <= P.cfg.budget && P.cfg.ttl > 0
    }
  }

  // ----- the states -----

  function Ticking(): State { Init().(tick := Simulating([])) }

  function Called(d: Bid): State {
    Ticking().(stage := map[d.uuid := Calling], intent := map[d.uuid := []], log := map[d.uuid := []],
               calls := map[d.uuid := Call(d.owner, d.Bundle(), false)])
  }

  function Registered(d: Bid): State {
    Called(d).(hub := Hub(map[d.uuid := Owner(d.owner, 0)], map[]),
               calls := map[d.uuid := Call(d.owner, d.Bundle(), true)], reg := map[d.uuid := d.owner])
  }

  function Received(d: Bid): State {
    Registered(d).(calls := map[], counted := map[d.uuid := d.Bundle()], received := 1, stage := map[d.uuid := Counted])
  }

  function Pushed(P: Params, d: Bid): State {
    Received(d).(counted := map[], stage := map[d.uuid := Buffered], buffer := [d.Pending(P)])
  }

  function Started(P: Params, d: Bid): State {
    Pushed(P, d).(tick := Draining([], [d.Pending(P)], 0, [], 1), buffer := [], stage := map[d.uuid := Ranking])
  }

  function Won(P: Params, d: Bid): State {
    Started(P, d).(tick := Draining([d.Pending(P)], [], d.Pending(P).Cu(), [d.Bundle()], 1),
                   stage := map[d.uuid := Winning], intent := map[d.uuid := [Accepted(0)]],
                   tickOut := Outbox([Publication(d.uuid, Accepted(0))], None))
  }

  function Resolved(P: Params, d: Bid): State {
    Won(P, d).(log := map[d.uuid := [Accepted(0)]],
               tickOut := Outbox([], Some(Flight(d.owner, Publication(d.uuid, Accepted(0))))))
  }

  function Delivered(P: Params, d: Bid): State {
    Resolved(P, d).(tickOut := Outbox([], None))
  }

  function Finished(P: Params, d: Bid): State {
    Delivered(P, d).(tick := Handing([d.Bundle()]), won := 1, dropped := 0)
  }

  function InSend(P: Params, d: Bid): State { HandStep(P, Finished(P, d)) }

  function SendLost(P: Params, d: Bid): State { InSend(P, d).(tick := Stopped([])) }

  // ----- the steps -----

  /** `step` is enabled in `s` and leads to `s'`. */
  ghost predicate Moves(P: Params, s: State, step: Step, s': State) {
    Enabled(s, step) && Next(P, s, step) == s'
  }

  lemma Ticks(P: Params)
    ensures Moves(P, Init(), StartTick, Ticking())
  {
    assert Uuids([]) == [];
  }

  lemma Calls(P: Params, d: Bid)
    ensures Moves(P, Ticking(), BeginSend(d.uuid, d.owner, Some(d.packets)), Called(d))
  {
  }

  lemma Registers(P: Params, d: Bid)
    ensures Moves(P, Called(d), RegisterCall(d.uuid), Registered(d))
  {
    assert RegisterStep(Called(d), d.uuid) == Registered(d);
  }

  lemma Counts(P: Params, d: Bid)
    ensures Moves(P, Registered(d), CountCall(d.uuid), Received(d))
  {
    assert Registered(d).calls - {d.uuid} == map[];
    assert CountStep(Registered(d), d.uuid) == Received(d);
  }

  lemma Pushes(P: Params, d: Bid)
    ensures Moves(P, Received(d), PushCall(d.uuid), Pushed(P, d))
  {
    assert Received(d).counted - {d.uuid} == map[];
    assert PushStep(P, Received(d), d.uuid) == Pushed(P, d);
  }

  lemma OneRanked(P: Params, d: Bid)
    requires d.Fit(P)
    ensures Ranked([d.Pending(P)], P.cfg, 0) == [d.Pending(P)] && Uuids([d.Pending(P)]) == [d.uuid]
  {
    var b := d.Pending(P);
    FilterAll([b], SurvivalTest(0, P.cfg.ttl));
    SortAppend([], b, KeyOf(P.cfg.density));
    assert [] + [b] == [b];
  }

  lemma Starts(P: Params, d: Bid)
    requires d.Fit(P)
    ensures Moves(P, Pushed(P, d), StartAuction, Started(P, d))
  {
    OneRanked(P, d);
    assert |[d.Pending(P)]| == 1;
    assert Settle(map[d.uuid := Buffered], Buffered, [d.uuid], Ranking) == map[d.uuid := Ranking];
    assert StartAuctionStep(P, Pushed(P, d)) == Started(P, d);
  }

  lemma Wins(P: Params, d: Bid)
    requires d.Fit(P)
    ensures Moves(P, Started(P, d), Drain, Won(P, d))
  {
    WinKind(P, d);
    WinTick(P, d);
    WinHistory(P, d);
    assert DrainStep(P, Started(P, d)) == Won(P, d);
  }

  lemma WinKind(P: Params, d: Bid)
    requires d.Fit(P)
    ensures DrainKind(P, Started(P, d)) == Accepted(0)
  {
  }

  lemma WinTick(P: Params, d: Bid)
    requires d.Fit(P)
    ensures DrainStep(P, Started(P, d)).tick == Won(P, d).tick
  {
    WinKind(P, d);
    TakeOne(d.Pending(P));
  }

  lemma TakeOne(b: PendingBundle)
    ensures [] + [b] == [b] && [b][1..] == [] && [] + [b.bundle] == [b.bundle] && WrapAdd(0, b.Cu()) == b.Cu()
  {
  }

  lemma WinHistory(P: Params, d: Bid)
    requires d.Fit(P)
    ensures DrainStep(P, Started(P, d)).intent == Won(P, d).intent
    ensures DrainStep(P, Started(P, d)).stage == Won(P, d).stage
  {
    WinKind(P, d);
    assert Of(Started(P, d).intent, d.uuid) + [Accepted(0)] == [Accepted(0)];
  }

  lemma Resolves(P: Params, d: Bid)
    ensures Moves(P, Won(P, d), ResolveNext(TickTask), Resolved(P, d))
  {
    ResolveFields(P, d);
    assert ResolveStep(Won(P, d), TickTask) == Resolved(P, d);
  }

  lemma ResolveFields(P: Params, d: Bid)
    ensures ResolveStep(Won(P, d), TickTask).log == Resolved(P, d).log
    ensures ResolveStep(Won(P, d), TickTask).tickOut == Resolved(P, d).tickOut
    ensures ResolveStep(Won(P, d), TickTask).hub == Resolved(P, d).hub
  {
    var p := Publication(d.uuid, Accepted(0));
    assert [p][1..] == [];
    assert Resolve(Won(P, d).hub, p) == (Won(P, d).hub, Some(d.owner));
    assert Of(Won(P, d).log, d.uuid) + [Accepted(0)] == [Accepted(0)];
  }

  lemma Delivers(P: Params, d: Bid)
    ensures Moves(P, Resolved(P, d), DeliverNext(TickTask), Delivered(P, d))
  {
    assert DeliverStep(Resolved(P, d), TickTask) == Delivered(P, d);
  }

  lemma Finishes(P: Params, d: Bid)
    ensures Moves(P, Delivered(P, d), FinishAuction, Finished(P, d))
  {
    assert FinishAuctionStep(Delivered(P, d)) == Finished(P, d);
  }

  lemma Sends(P: Params, d: Bid)
    ensures Moves(P, Finished(P, d), Hand, InSend(P, d))
    ensures InSend(P, d).tick == Sending(d.Bundle(), []) && InSend(P, d).forwarded == []
    ensures InSend(P, d).intent == map[d.uuid := [Accepted(0)]]
  {
  }

  lemma Fails(P: Params, d: Bid)
    ensures Moves(P, InSend(P, d), SendFailed, SendLost(P, d))
    ensures SendLost(P, d).tick == Stopped([]) && SendLost(P, d).forwarded == []
    ensures SendLost(P, d).intent == map[d.uuid := [Accepted(0)]]
  {
    Sends(P, d);
  }

  // ----- the run -----

  ghost predicate RunTo(P: Params, states: seq<State>, steps: seq<Step>, s: State) {
    IsRun(P, states, steps) && states[|steps|] == s
  }

  lemma Extend(P: Params, states: seq<State>, steps: seq<Step>, s: State, step: Step, s': State)
    requires RunTo(P, states, steps, s) && Moves(P, s, step, s')
    ensures RunTo(P, states + [s'], steps + [step], s')
  {
  }

  lemma Begins(P: Params)
    ensures RunTo(P, [Init()], [], Init())
  {
  }

  lemma SubmitRun(P: Params, d: Bid) returns (states: seq<State>, steps: seq<Step>)
    ensures RunTo(P, states, steps, Pushed(P, d)) && |steps| == 5 && steps[0] == StartTick
    ensures forall k :: 0 <= k < 5 ==> steps[k] != StartAuction
    ensures states[0].buffer == []
  {
    Begins(P);
    Ticks(P);
    Extend(P, [Init()], [], Init(), StartTick, Ticking());
    states, steps := [Init()] + [Ticking()], [] + [StartTick];
    Calls(P, d);
    var b := BeginSend(d.uuid, d.owner, Some(d.packets));
    Extend(P, states, steps, Ticking(), b, Called(d));
    states, steps := states + [Called(d)], steps + [b];
    Registers(P, d);
    Extend(P, states, steps, Called(d), RegisterCall(d.uuid), Registered(d));
    states, steps := states + [Registered(d)], steps + [RegisterCall(d.uuid)];
    Counts(P, d);
    Extend(P, states, steps, Registered(d), CountCall(d.uuid), Received(d));
    states, steps := states + [Received(d)], steps + [CountCall(d.uuid)];
    Pushes(P, d);
    Extend(P, states, steps, Received(d), PushCall(d.uuid), Pushed(P, d));
    states, steps := states + [Pushed(P, d)], steps + [PushCall(d.uuid)];
  }

  lemma WinRun(P: Params, d: Bid) returns (states: seq<State>, steps: seq<Step>)
    requires d.Fit(P)
    ensures RunTo(P, states, steps, Won(P, d)) && |steps| == 7 && steps[0] == StartTick && steps[5] == StartAuction
    ensures forall k :: 0 <= k < 5 ==> steps[k] != StartAuction
    ensures states[0].buffer == [] && states[5] == Pushed(P, d)
  {
    states, steps := SubmitRun(P, d);
    Starts(P, d);
    Extend(P, states, steps, Pushed(P, d), StartAuction, Started(P, d));
    states, steps := states + [Started(P, d)], steps + [StartAuction];
    Wins(P, d);
    Extend(P, states, steps, Started(P, d), Drain, Won(P, d));
    states, steps := states + [Won(P, d)], steps + [Drain];
  }

  lemma LossRun(P: Params, d: Bid) returns (states: seq<State>, steps: seq<Step>)
    requires d.Fit(P)
    ensures RunTo(P, states, steps, SendLost(P, d)) && |steps| == 12
    ensures states[11] == InSend(P, d) && steps[11] == SendFailed
  {
    states, steps := WinRun(P, d);
    Resolves(P, d);
    Extend(P, states, steps, Won(P, d), ResolveNext(TickTask), Resolved(P, d));
    states, steps := states + [Resolved(P, d)], steps + [ResolveNext(TickTask)];
    Delivers(P, d);
    Extend(P, states, steps, Resolved(P, d), DeliverNext(TickTask), Delivered(P, d));
    states, steps := states + [Delivered(P, d)], steps + [DeliverNext(TickTask)];
    Finishes(P, d);
    Extend(P, states, steps, Delivered(P, d), FinishAuction, Finished(P, d));
    states, steps := states + [Finished(P, d)], steps + [FinishAuction];
    Sends(P, d);
    Extend(P, states, steps, Finished(P, d), Hand, InSend(P, d));
    states, steps := states + [InSend(P, d)], steps + [Hand];
    Fails(P, d);
    Extend(P, states, steps, InSend(P, d), SendFailed, SendLost(P, d));
    states, steps := states + [SendLost(P, d)], steps + [SendFailed];
  }

  /** A bundle that was not buffered when the tick began wins unsimulated and is accepted,
      simulator or not. */
  lemma LateBundleWins(P: Params, d: Bid) returns (states: seq<State>, steps: seq<Step>, b: PendingBundle)
    requires d.Fit(P)
    ensures IsRun(P, states, steps) && |steps| == 7 && steps[0] == StartTick && steps[5] == StartAuction
    ensures forall k :: 0 < k < 5 ==> steps[k] != StartAuction
    ensures b in RunAuction(states[5].buffer, P.cfg, states[5].now).winners
    ensures b.bundle == d.Bundle() && b.sim.None? && states[0].buffer == []
    ensures IsAccepted(states[7].intent, d.uuid)
  {
    states, steps := WinRun(P, d);
    b := d.Pending(P);
    OneWins(P, d);
  }

  lemma OneWins(P: Params, d: Bid)
    requires d.Fit(P)
    ensures RunAuction([d.Pending(P)], P.cfg, 0).winners == [d.Pending(P)]
  {
    var b := d.Pending(P);
    OneRanked(P, d);
    SelectSnoc([], b, P.cfg.budget);
    assert [] + [b] == [b];
  }

  /** An accepted bundle whose send failed: resolved to its searcher as accepted, not
      forwarded, and in nobody's hands. */
  lemma AcceptedNotForwarded(P: Params, d: Bid) returns (states: seq<State>, steps: seq<Step>)
    requires d.Fit(P)
    ensures IsRun(P, states, steps) && |steps| == 12
    ensures IsAccepted(states[12].intent, d.uuid) && Of(states[12].log, d.uuid) == [Accepted(0)]
    ensures FailsAt(states[11], steps[11], d.uuid)
    ensures d.uuid !in BundleIds(states[12].forwarded) && !InHand(states[12], d.uuid)
  {
    states, steps := LossRun(P, d);
    Sends(P, d);
    Fails(P, d);
  }

  /** With a time to live of zero the bundle has expired when the auction starts: it is
      neither a winner nor a loser, and nothing is decided for it. */
  lemma ExpiredWitness(P: Params, d: Bid) returns (states: seq<State>, steps: seq<Step>)
    requires P.cfg.ttl == 0
    ensures IsRun(P, states, steps) && |steps| == 6 && steps[5] == StartAuction
    ensures states[5].buffer == [d.Pending(P)] && states[6].buffer == []
    ensures RunAuction(states[5].buffer, P.cfg, states[5].now).results == []
    ensures Of(states[6].intent, d.uuid) == []
  {
    states, steps := SubmitRun(P, d);
    var s' := StartAuctionStep(P, Pushed(P, d));
    StartsAnyway(P, d);
    Extend(P, states, steps, Pushed(P, d), StartAuction, s');
    states, steps := states + [s'], steps + [StartAuction];
    NoneRanked(P, d);
  }

  lemma StartsAnyway(P: Params, d: Bid)
    ensures Moves(P, Pushed(P, d), StartAuction, StartAuctionStep(P, Pushed(P, d)))
    ensures StartAuctionStep(P, Pushed(P, d)).buffer == []
    ensures StartAuctionStep(P, Pushed(P, d)).intent == map[d.uuid := []]
  {
  }

  lemma NoneRanked(P: Params, d: Bid)
    requires P.cfg.ttl == 0
    ensures RunAuction([d.Pending(P)], P.cfg, 0).results == []
  {
    assert Filter([d.Pending(P)][1..], SurvivalTest(0, 0)) == [];
    assert Survivors([d.Pending(P)], P.cfg, 0) == [];
  }
}
