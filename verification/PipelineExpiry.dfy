/** What becomes of a bundle that the auction passes over: the engine's README has every
    bundle that does not win reported as a loser, but an expired one hears nothing. */
module PipelineExpiry {
  import opened Common
  import opened Bundles
  import StableSort
  import opened AuctionSpec
  import opened TrackerSpec
  import opened Pipeline
  import opened PipelineInvariant
  import opened PipelineProof
  import opened PipelineFrames
  import opened PipelineTheorems
  import opened PipelineVerdicts

  /** The uuid is done and its history is `w`. */
  ghost predicate Over(stage: map<string, Stage>, intent: History, u: string, w: seq<ResultKind>) {
    IsAt(stage, u, Done) && Of(intent, u) == w
  }

  ghost predicate IsOver(s: State, u: string, w: seq<ResultKind>) { Over(s.stage, s.intent, u, w) }

  // ----- done is final -----

  lemma CountStaysOver(s: State, v: string, u: string, w: seq<ResultKind>)
    requires Places(s) && v in s.calls && IsOver(s, u, w)
    ensures IsOver(CountStep(s, v), u, w)
  {
    assert IsAt(s.stage, v, Calling);
  }

  lemma PushStaysOver(P: Params, s: State, v: string, u: string, w: seq<ResultKind>)
    requires Places(s) && v in s.counted && IsOver(s, u, w)
    ensures IsOver(PushStep(P, s, v), u, w)
  {
    assert IsAt(s.stage, v, Counted);
  }

  lemma BeginSendStaysOver(
    s: State, v: string, owner: string, packets: Option<seq<Packet>>, u: string, w: seq<ResultKind>)
    requires v !in s.stage && IsOver(s, u, w)
    ensures IsOver(BeginSendStep(s, v, owner, packets), u, w)
  {
  }

  lemma CallerStaysOver(P: Params, s: State, step: Step, u: string, w: seq<ResultKind>)
    requires Places(s) && Enabled(s, step) && OfCaller(step) && IsOver(s, u, w)
    ensures IsOver(Next(P, s, step), u, w)
  {
    match step
    case Wait(_) =>
    case BeginSend(v, owner, packets) => BeginSendStaysOver(s, v, owner, packets, u, w);
    case RegisterCall(v) => assert IsOver(RegisterStep(s, v), u, w);
    case CountCall(v) => CountStaysOver(s, v, u, w);
    case PushCall(v) => PushStaysOver(P, s, v, u, w);
  }

  lemma SetSimStaysOver(s: State, outcome: SimOutcome, u: string, w: seq<ResultKind>)
    requires Places(s) && Intents(s) && Queue(s) && s.tick.Simulating? && s.tick.queue != [] && IsOver(s, u, w)
    ensures IsOver(SetSimStep(s, outcome), u, w)
  {
    QueuedIsFresh(s);
  }

  lemma StartAuctionStaysOver(P: Params, s: State, u: string, w: seq<ResultKind>)
    requires IsOver(s, u, w)
    ensures IsOver(StartAuctionStep(P, s), u, w)
  {
  }

  lemma DrainStaysOver(P: Params, s: State, u: string, w: seq<ResultKind>)
    requires Places(s) && Intents(s) && s.tick.Draining? && s.tick.rest != [] && IsOver(s, u, w)
    ensures IsOver(DrainStep(P, s), u, w)
  {
    DrainHead(s);
  }

  lemma HandStaysOver(P: Params, s: State, u: string, w: seq<ResultKind>)
    requires Places(s) && s.tick.Handing? && s.tick.left != [] && IsOver(s, u, w)
    ensures IsOver(HandStep(P, s), u, w)
  {
    assert BundleIds(s.tick.Won())[0] == s.tick.left[0].uuid;
    assert IsAt(s.stage, s.tick.left[0].uuid, Winning);
  }

  lemma TickStaysOver(P: Params, s: State, step: Step, u: string, w: seq<ResultKind>)
    requires Places(s) && Intents(s) && Queue(s) && Enabled(s, step) && OfTick(step) && IsOver(s, u, w)
    ensures IsOver(Next(P, s, step), u, w)
  {
    match step
    case StartTick =>
    case SetSim(outcome) => SetSimStaysOver(s, outcome, u, w);
    case StartAuction => StartAuctionStaysOver(P, s, u, w);
    case Drain => DrainStaysOver(P, s, u, w);
    case FinishAuction =>
    case Hand => HandStaysOver(P, s, u, w);
    case SendOk =>
    case SendFailed =>
    case EndTick =>
  }

  lemma AnswerStaysOver(P: Params, s: State, reply: Option<seq<Option<Status>>>, u: string, w: seq<ResultKind>)
    requires Places(s) && s.poll.Asking? && IsOver(s, u, w)
    ensures IsOver(AnswerStep(P, s, reply), u, w)
  {
    if reply.Some? {
      var j := JudgementOf(P, s, reply.value);
      NotTracked(s.tracked, s.stage, u);
      forall p | p in Publications(s.tracked, j) ensures p.uuid != u {
        SweepAnnounces(s.tracked, j, p);
      }
      AnnounceOther(s.intent, Publications(s.tracked, j), u);
    }
  }

  lemma PollStaysOver(P: Params, s: State, step: Step, u: string, w: seq<ResultKind>)
    requires Places(s) && Enabled(s, step) && OfPoll(step) && IsOver(s, u, w)
    ensures IsOver(Next(P, s, step), u, w)
  {
    match step
    case Ask =>
    case Answer(reply) => AnswerStaysOver(P, s, reply, u, w);
  }

  lemma StaysOver(P: Params, s: State, step: Step, u: string, w: seq<ResultKind>)
    requires Places(s) && Intents(s) && Queue(s) && Enabled(s, step) && IsOver(s, u, w)
    ensures IsOver(Next(P, s, step), u, w)
  {
    if OfHub(step) {
      HubFrame(P, s, step);
    } else if OfCaller(step) {
      CallerStaysOver(P, s, step, u, w);
    } else if OfTick(step) {
      TickStaysOver(P, s, step, u, w);
    } else {
      PollStaysOver(P, s, step, u, w);
    }
  }

  lemma RunStepStaysOver(P: Params, states: seq<State>, steps: seq<Step>, j: nat, u: string, w: seq<ResultKind>)
    requires IsRun(P, states, steps) && j < |steps| && IsOver(states[j], u, w)
    ensures IsOver(states[j + 1], u, w)
  {
    RunInv(P, states, steps, j);
    StaysOver(P, states[j], steps[j], u, w);
  }

  ghost predicate OverAt(states: seq<State>, k: nat, u: string, w: seq<ResultKind>) {
    k + 1 < |states| && IsOver(states[k], u, w) ==> IsOver(states[k + 1], u, w)
  }

  lemma {:induction false} ChainOver(states: seq<State>, i: nat, j: nat, u: string, w: seq<ResultKind>)
    requires i <= j < |states| && IsOver(states[i], u, w) && forall k: nat :: OverAt(states, k, u, w)
    ensures IsOver(states[j], u, w)
    decreases j
  {
    if i < j {
      ChainOver(states, i, j - 1, u, w);
      assert OverAt(states, j - 1, u, w);
    }
  }

  /** Nothing more is ever decided for a bundle that no component holds. */
  lemma DoneIsFinal(P: Params, states: seq<State>, steps: seq<Step>, i: nat, j: nat, u: string, w: seq<ResultKind>)
    requires IsRun(P, states, steps) && i <= j < |states| && IsOver(states[i], u, w)
    ensures IsOver(states[j], u, w)
  {
    forall k: nat ensures OverAt(states, k, u, w) {
      if k < |steps| && IsOver(states[k], u, w) {
        RunStepStaysOver(P, states, steps, k, u, w);
      }
    }
    ChainOver(states, i, j, u, w);
  }

  // ----- bundles that the auction passes over -----

  lemma PassedOver(P: Params, s: State, b: PendingBundle)
    requires Places(s) && Intents(s) && b in s.buffer && !Survives(b, s.now, P.cfg.ttl)
    ensures IsOver(StartAuctionStep(P, s), b.bundle.uuid, if b.FailedSimulation() then [SimFailure] else [])
  {
    var u := b.bundle.uuid;
    UuidsMember(s.buffer, u);
    assert IsAt(s.stage, u, Buffered);
    var ranked := Ranked(s.buffer, P.cfg, s.now);
    if u in Uuids(ranked) {
      UuidsMember(ranked, u);
      var c :| c in ranked && c.bundle.uuid == u;
      RankedIsBuffered(P, s, c);
      SameBundle(s.buffer, b, c);
    }
  }

  lemma RankedIsBuffered(P: Params, s: State, c: PendingBundle)
    requires c in Ranked(s.buffer, P.cfg, s.now)
    ensures c in s.buffer && Survives(c, s.now, P.cfg.ttl)
  {
    StableSort.SortMember(Survivors(s.buffer, P.cfg, s.now), KeyOf(P.cfg.density), c);
    FilterMember(s.buffer, SurvivalTest(s.now, P.cfg.ttl), c);
  }

  lemma RunStarts(P: Params, states: seq<State>, steps: seq<Step>, j: nat)
    requires IsRun(P, states, steps) && j < |steps| && steps[j] == StartAuction
    ensures states[j + 1] == StartAuctionStep(P, states[j]) && Places(states[j]) && Intents(states[j])
  {
    RunInv(P, states, steps, j);
  }

  lemma RunPassedOver(P: Params, states: seq<State>, steps: seq<Step>, j: nat, b: PendingBundle)
    requires IsRun(P, states, steps) && j < |steps| && steps[j] == StartAuction
    requires b in states[j].buffer && !Survives(b, states[j].now, P.cfg.ttl)
    ensures IsOver(states[j + 1], b.bundle.uuid, if b.FailedSimulation() then [SimFailure] else [])
  {
    RunStarts(P, states, steps, j);
    PassedOver(P, states[j], b);
  }

  /** In every run: a buffered bundle that has expired when an auction starts, or has failed
      simulation, never gets a result from then on. If it had not failed, it never gets any
      result at all. */
  lemma ExpiredHearsNothing(P: Params, states: seq<State>, steps: seq<Step>, j: nat, i: nat, b: PendingBundle)
    requires IsRun(P, states, steps) && j < i < |states| && steps[j] == StartAuction && b in states[j].buffer
    requires SatSub(states[j].now, b.received) >= P.cfg.ttl || (b.sim.Some? && !b.sim.value.ok)
    ensures Of(states[i].intent, b.bundle.uuid) == if b.FailedSimulation() then [SimFailure] else []
  {
    RunPassedOver(P, states, steps, j, b);
    DoneIsFinal(P, states, steps, j + 1, i, b.bundle.uuid, if b.FailedSimulation() then [SimFailure] else []);
  }
}
