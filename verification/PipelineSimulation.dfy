/** Which winners were simulated: the engine's README has every bundle dry-run before it
    can win, but a bundle that arrives during the simulation pass is not. */
module PipelineSimulation {
  import opened Common
  import opened Bundles
  import opened AuctionSpec
  import opened AuctionTheorems
  import opened Pipeline
  import opened PipelineInvariant
  import opened PipelineProof
  import opened PipelineFrames
  import opened PipelineTheorems

  /** A simulation pass that began with the bundles `start` in the buffer: they are all
      still there, and exactly those taken off the queue have been simulated. */
  ghost predicate InPass(tick: Tick, buffer: seq<PendingBundle>, start: seq<string>) {
    && tick.Simulating?
    && (forall u :: u in tick.queue ==> u in start)
    && (forall u :: u in start ==> u in Uuids(buffer))
    && (forall b :: b in buffer ==> (b.sim.None? <==> b.bundle.uuid !in start || b.bundle.uuid in tick.queue))
  }

  lemma PassStarts(P: Params, s: State)
    requires Places(s) && P.simulate
    ensures InPass(StartTickStep(P, s).tick, s.buffer, Uuids(s.buffer))
  {
    var todo := Filter(s.buffer, UnsimulatedTest());
    forall u | u in Uuids(todo) ensures u in Uuids(s.buffer) {
      UuidsMember(todo, u);
      var b :| b in todo && b.bundle.uuid == u;
      FilterMember(s.buffer, UnsimulatedTest(), b);
      UuidsMember(s.buffer, u);
    }
    forall b | b in s.buffer
      ensures b.bundle.uuid in Uuids(s.buffer) && (b.sim.None? <==> b.bundle.uuid in Uuids(todo))
    {
      UuidsMember(s.buffer, b.bundle.uuid);
      QueuedExactly(s.buffer, b);
    }
  }

  lemma QueuedExactly(buffer: seq<PendingBundle>, b: PendingBundle)
    requires Distinct(Uuids(buffer)) && b in buffer
    ensures b.sim.None? <==> b.bundle.uuid in Uuids(Filter(buffer, UnsimulatedTest()))
  {
    var todo := Filter(buffer, UnsimulatedTest());
    UuidsMember(todo, b.bundle.uuid);
    FilterMember(buffer, UnsimulatedTest(), b);
    if c :| c in todo && c.bundle.uuid == b.bundle.uuid {
      FilterMember(buffer, UnsimulatedTest(), c);
      SameBundle(buffer, b, c);
    }
  }

  lemma PassSimulates(tick: Tick, buffer: seq<PendingBundle>, start: seq<string>, outcome: SimOutcome)
    requires InPass(tick, buffer, start) && tick.queue != [] && Distinct(tick.queue) && Distinct(Uuids(buffer))
    ensures InPass(Simulating(tick.queue[1..]), WithSimulation(buffer, tick.queue[0], outcome), start)
  {
    var u, rest := tick.queue[0], tick.queue[1..];
    var after := WithSimulation(buffer, u, outcome);
    assert tick.queue == [u] + rest;
    assert u !in rest by {
      assert forall k :: 0 <= k < |rest| ==> rest[k] == tick.queue[k + 1];
    }
    SimulationUuids(buffer, u, outcome);
    forall b | b in after ensures b.sim.None? <==> b.bundle.uuid !in start || b.bundle.uuid in rest {
      SimulationMember(buffer, u, outcome, b);
    }
  }

  lemma PassAdmits(tick: Tick, buffer: seq<PendingBundle>, start: seq<string>, b: PendingBundle)
    requires InPass(tick, buffer, start) && b.sim.None? && b.bundle.uuid !in Uuids(buffer)
    ensures InPass(tick, buffer + [b], start)
  {
    assert Uuids(buffer + [b]) == Uuids(buffer) + [b.bundle.uuid];
  }

  lemma PushedIsNew(s: State, u: string)
    requires Places(s) && Calls(s) && u in s.counted
    ensures s.counted[u].uuid == u && u !in Uuids(s.buffer)
  {
    assert IsAt(s.stage, u, Counted);
  }

  lemma PushKeepsPass(P: Params, s: State, u: string, start: seq<string>)
    requires Places(s) && Calls(s) && u in s.counted && InPass(s.tick, s.buffer, start)
    ensures InPass(PushStep(P, s, u).tick, PushStep(P, s, u).buffer, start)
  {
    PushedIsNew(s, u);
    var (tip, cu) := P.score(s.counted[u]);
    PassAdmits(s.tick, s.buffer, start, PendingBundle(s.counted[u], tip, cu, s.now, None));
  }

  lemma SetSimKeepsPass(s: State, outcome: SimOutcome, start: seq<string>)
    requires Places(s) && Queue(s) && InPass(s.tick, s.buffer, start) && s.tick.queue != []
    ensures InPass(SetSimStep(s, outcome).tick, SetSimStep(s, outcome).buffer, start)
  {
    PassSimulates(s.tick, s.buffer, start, outcome);
  }

  lemma BufferFrame(P: Params, s: State, step: Step)
    requires Enabled(s, step) && !OfTick(step) && !step.PushCall?
    ensures Next(P, s, step).tick == s.tick && Next(P, s, step).buffer == s.buffer
  {
    if OfHub(step) {
      HubFrame(P, s, step);
    } else if OfCaller(step) {
      CallerFrame(P, s, step);
    } else {
      PollFrame(P, s, step);
    }
  }

  lemma PassGoesOn(P: Params, s: State, step: Step, start: seq<string>)
    requires Inv(s) && Enabled(s, step) && step != StartAuction && InPass(s.tick, s.buffer, start)
    ensures InPass(Next(P, s, step).tick, Next(P, s, step).buffer, start)
  {
    if step.SetSim? {
      SetSimKeepsPass(s, step.outcome, start);
    } else if step.PushCall? {
      PushKeepsPass(P, s, step.uuid, start);
    } else {
      BufferFrame(P, s, step);
    }
  }

  lemma PassRunStep(P: Params, states: seq<State>, steps: seq<Step>, j: nat, start: seq<string>)
    requires IsRun(P, states, steps) && j < |steps| && steps[j] != StartAuction
    requires InPass(states[j].tick, states[j].buffer, start)
    ensures InPass(states[j + 1].tick, states[j + 1].buffer, start)
  {
    RunInv(P, states, steps, j);
    PassGoesOn(P, states[j], steps[j], start);
  }

  lemma PassRunStarts(P: Params, states: seq<State>, steps: seq<Step>, i: nat)
    requires IsRun(P, states, steps) && i < |steps| && steps[i] == StartTick && P.simulate
    ensures InPass(states[i + 1].tick, states[i + 1].buffer, Uuids(states[i].buffer))
  {
    RunInv(P, states, steps, i);
    PassStarts(P, states[i]);
  }

  lemma {:induction false} PassRuns(P: Params, states: seq<State>, steps: seq<Step>, i: nat, j: nat)
    requires IsRun(P, states, steps) && i < j < |states| && steps[i] == StartTick && P.simulate
    requires forall k :: i < k < j ==> steps[k] != StartAuction
    ensures InPass(states[j].tick, states[j].buffer, Uuids(states[i].buffer))
    decreases j
  {
    if j == i + 1 {
      PassRunStarts(P, states, steps, i);
    } else {
      PassRuns(P, states, steps, i, j - 1);
      PassRunStep(P, states, steps, j - 1, Uuids(states[i].buffer));
    }
  }

  /** In every run with a simulator: a bundle in the auction that ends a tick, and so each
      of its winners, is unsimulated if and only if it was not yet buffered when the tick
      began. */
  lemma SimulatedIffBuffered(P: Params, states: seq<State>, steps: seq<Step>, i: nat, j: nat, b: PendingBundle)
    requires IsRun(P, states, steps) && i < j < |steps| && P.simulate
    requires steps[i] == StartTick && steps[j] == StartAuction && forall k :: i < k < j ==> steps[k] != StartAuction
    requires b in states[j].buffer
    ensures b.sim.None? <==> b.bundle.uuid !in Uuids(states[i].buffer)
  {
    PassRuns(P, states, steps, i, j);
  }

  lemma WinnersSimulated(P: Params, states: seq<State>, steps: seq<Step>, i: nat, j: nat, b: PendingBundle)
    requires IsRun(P, states, steps) && i < j < |steps| && P.simulate
    requires steps[i] == StartTick && steps[j] == StartAuction && forall k :: i < k < j ==> steps[k] != StartAuction
    requires b in RunAuction(states[j].buffer, P.cfg, states[j].now).winners
    ensures b.sim.None? <==> b.bundle.uuid !in Uuids(states[i].buffer)
    ensures b.sim.Some? ==> b.sim.value.ok
  {
    RankedExactly(states[j].buffer, P.cfg, states[j].now, b);
    SimulatedIffBuffered(P, states, steps, i, j, b);
  }
}
