/** What `Accepted` promises: the engine's README says that the bundle won and was
    forwarded, but the result is published at selection. */
module PipelineAcceptance {
  import opened Common
  import opened Bundles
  import opened AuctionSpec
  import opened TrackerSpec
  import opened Pipeline
  import opened PipelineInvariant
  import opened PipelineProof
  import opened PipelineFrames
  import opened PipelineTheorems
  import opened PipelineVerdicts

  /** The first result decided for the bundle is `Accepted`. */
  predicate IsAccepted(intent: History, u: string) {
    Of(intent, u) != [] && Of(intent, u)[0] == Accepted(0)
  }

  /** The winners the tick task has sent, is sending, or still has to hand over. */
  function Taken(tick: Tick, forwarded: seq<BundleUuid>): seq<BundleUuid> {
    forwarded + tick.InSending() + tick.Won()
  }

  predicate IsTaken(s: State, u: string) {
    u in BundleIds(Taken(s.tick, s.forwarded))
  }

  /** The send of this bundle failed at step `k`. */
  predicate FailsAt(s: State, step: Step, u: string) {
    step.SendFailed? && s.tick.Sending? && s.tick.winner.uuid == u
  }

  // ----- the steps of the tick task -----

  lemma IdsConcat(a: seq<BundleUuid>, b: seq<BundleUuid>, u: string)
    ensures u in BundleIds(a + b) <==> u in BundleIds(a) || u in BundleIds(b)
  {
    assert BundleIds(a + b) == BundleIds(a) + BundleIds(b);
  }

  /** `tick'` and `forwarded'` hold the same winners, in the same order. */
  lemma SameTaken(s: State, s': State, u: string)
    requires Taken(s'.tick, s'.forwarded) == Taken(s.tick, s.forwarded)
    ensures IsTaken(s', u) <==> IsTaken(s, u)
  {
  }

  lemma HandTakes(P: Params, s: State)
    requires s.tick.Handing? && s.tick.left != []
    ensures Taken(HandStep(P, s).tick, HandStep(P, s).forwarded) == Taken(s.tick, s.forwarded)
  {
    assert [s.tick.left[0]] + s.tick.left[1..] == s.tick.left;
  }

  lemma SendOkTakes(s: State)
    requires s.tick.Sending?
    ensures Taken(Handing(s.tick.left), s.forwarded + [s.tick.winner]) == Taken(s.tick, s.forwarded)
  {
  }

  /** Steps of the tick task that move winners on without gaining or losing one. */
  lemma TickTakes(P: Params, s: State, step: Step)
    requires Enabled(s, step) && OfTick(step) && !step.Drain? && !step.SendFailed?
    ensures Taken(Next(P, s, step).tick, Next(P, s, step).forwarded) == Taken(s.tick, s.forwarded)
  {
    match step
    case StartTick =>
    case SetSim(outcome) => assert SetSimStep(s, outcome).tick.Simulating?;
    case StartAuction => assert StartAuctionStep(P, s).tick.Won() == [];
    case FinishAuction => assert FinishAuctionStep(s).tick.Won() == s.tick.Won();
    case Hand => HandTakes(P, s);
    case SendOk => SendOkTakes(s);
    case EndTick =>
  }

  /** Every step but a drain and a failed send leaves the set of taken bundles alone. */
  lemma TakenFrame(P: Params, s: State, step: Step, u: string)
    requires Enabled(s, step) && !step.Drain? && !step.SendFailed?
    ensures IsTaken(Next(P, s, step), u) <==> IsTaken(s, u)
  {
    if OfTick(step) {
      TickTakes(P, s, step);
    } else {
      TickFrame(P, s, step);
    }
    SameTaken(s, Next(P, s, step), u);
  }

  lemma DrainTakes(P: Params, s: State, u: string)
    requires s.tick.Draining? && s.tick.rest != []
    ensures IsTaken(DrainStep(P, s), u)
       <==> IsTaken(s, u) || (DrainKind(P, s).Accepted? && u == s.tick.rest[0].bundle.uuid)
  {
    var s' := DrainStep(P, s);
    var b := s.tick.rest[0].bundle;
    if DrainKind(P, s).Accepted? {
      assert Taken(s'.tick, s'.forwarded) == Taken(s.tick, s.forwarded) + [b];
      IdsConcat(Taken(s.tick, s.forwarded), [b], u);
      assert BundleIds([b]) == [b.uuid];
    } else {
      SameTaken(s, s', u);
    }
  }

  lemma SendFailedTakes(s: State, u: string)
    requires s.tick.Sending?
    ensures IsTaken(s, u) <==> IsTaken(s.(tick := Stopped(s.tick.left)), u) || u == s.tick.winner.uuid
  {
    var f, w, left := s.forwarded, s.tick.winner, s.tick.left;
    IdsConcat(f + [w], left, u);
    IdsConcat(f, [w], u);
    IdsConcat(f, left, u);
    assert f + [] == f;
    assert BundleIds([w]) == [w.uuid];
  }

  // ----- the steps that decide -----

  lemma BeginSendAccepts(s: State, u: string, owner: string, packets: Option<seq<Packet>>, v: string)
    requires Intents(s) && u !in s.stage
    ensures IsAccepted(BeginSendStep(s, u, owner, packets).intent, v) <==> IsAccepted(s.intent, v)
  {
  }

  lemma SetSimAccepts(s: State, outcome: SimOutcome, v: string)
    requires Places(s) && Intents(s) && Queue(s) && s.tick.Simulating? && s.tick.queue != []
    ensures IsAccepted(SetSimStep(s, outcome).intent, v) <==> IsAccepted(s.intent, v)
  {
    QueuedIsFresh(s);
  }

  lemma DrainAccepts(P: Params, s: State, v: string)
    requires Places(s) && Intents(s) && s.tick.Draining? && s.tick.rest != []
    ensures IsAccepted(DrainStep(P, s).intent, v)
       <==> IsAccepted(s.intent, v) || (DrainKind(P, s).Accepted? && v == s.tick.rest[0].bundle.uuid)
    ensures !IsAccepted(s.intent, s.tick.rest[0].bundle.uuid)
  {
    DrainHead(s);
  }

  lemma AnswerAccepts(P: Params, s: State, reply: Option<seq<Option<Status>>>, v: string)
    requires s.poll.Asking?
    ensures IsAccepted(AnswerStep(P, s, reply).intent, v) <==> IsAccepted(s.intent, v)
  {
    if reply.Some? {
      var pubs := Publications(s.tracked, JudgementOf(P, s, reply.value));
      AnnounceExtends(s.intent, pubs, v);
      if Of(s.intent, v) == [] && IsAccepted(Announce(s.intent, pubs), v) {
        AnnouncedOrOld(s.intent, pubs, v, Accepted(0));
        SweepAnnounces(s.tracked, JudgementOf(P, s, reply.value), Publication(v, Accepted(0)));
        assert false;
      }
    }
  }

  lemma AcceptedFrame(P: Params, s: State, step: Step, v: string)
    requires Places(s) && Intents(s) && Queue(s) && Enabled(s, step) && !step.Drain?
    ensures IsAccepted(Next(P, s, step).intent, v) <==> IsAccepted(s.intent, v)
  {
    if !Decides(step) {
      IntentFrame(P, s, step);
    } else if step.BeginSend? {
      BeginSendAccepts(s, step.uuid, step.owner, step.packets, v);
    } else if step.SetSim? {
      SetSimAccepts(s, step.outcome, v);
    } else {
      AnswerAccepts(P, s, step.reply, v);
    }
  }

  // ----- accepted is taken, or its send failed -----

  lemma AcceptanceStep(P: Params, s: State, step: Step, u: string, failed: bool)
    requires Places(s) && Intents(s) && Queue(s) && Enabled(s, step)
    requires IsAccepted(s.intent, u) <==> IsTaken(s, u) || failed
    ensures var s' := Next(P, s, step);
      IsAccepted(s'.intent, u) <==> IsTaken(s', u) || failed || FailsAt(s, step, u)
  {
    if step.Drain? {
      DrainAccepts(P, s, u);
      DrainTakes(P, s, u);
    } else {
      AcceptedFrame(P, s, step, u);
      if step.SendFailed? {
        SendFailedTakes(s, u);
      } else {
        TakenFrame(P, s, step, u);
      }
    }
  }

  ghost predicate FailedBefore(states: seq<State>, steps: seq<Step>, i: nat, u: string)
    requires i <= |steps| < |states|
  {
    exists k :: 0 <= k < i && FailsAt(states[k], steps[k], u)
  }

  lemma AcceptanceRunStep(P: Params, states: seq<State>, steps: seq<Step>, j: nat, u: string, failed: bool)
    requires IsRun(P, states, steps) && j < |steps|
    requires IsAccepted(states[j].intent, u) <==> IsTaken(states[j], u) || failed
    ensures IsAccepted(states[j + 1].intent, u)
       <==> IsTaken(states[j + 1], u) || failed || FailsAt(states[j], steps[j], u)
  {
    RunInv(P, states, steps, j);
    AcceptanceStep(P, states[j], steps[j], u, failed);
  }

  lemma FailedNext(states: seq<State>, steps: seq<Step>, j: nat, u: string)
    requires j < |steps| < |states|
    ensures FailedBefore(states, steps, j + 1, u)
       <==> FailedBefore(states, steps, j, u) || FailsAt(states[j], steps[j], u)
  {
  }

  /** In every run, at every state: a bundle was accepted if and only if it has been
      forwarded, is being sent, waits to be handed over, or is the one whose send failed. */
  lemma {:induction false} AcceptedIffTaken(P: Params, states: seq<State>, steps: seq<Step>, i: nat, u: string)
    requires IsRun(P, states, steps) && i < |states|
    ensures IsAccepted(states[i].intent, u) <==> IsTaken(states[i], u) || FailedBefore(states, steps, i, u)
  {
    if i > 0 {
      AcceptedIffTaken(P, states, steps, i - 1, u);
      AcceptanceRunStep(P, states, steps, i - 1, u, FailedBefore(states, steps, i - 1, u));
      FailedNext(states, steps, i - 1, u);
    }
  }

  // ----- accepted but not forwarded -----

  /** The winners not sent yet. */
  predicate InHand(s: State, u: string) {
    u in BundleIds(s.tick.InSending() + s.tick.Won())
  }

  lemma TakenSplits(s: State, u: string)
    ensures IsTaken(s, u) <==> u in BundleIds(s.forwarded) || InHand(s, u)
  {
    IdsConcat(s.forwarded, s.tick.InSending() + s.tick.Won(), u);
    assert s.forwarded + (s.tick.InSending() + s.tick.Won()) == Taken(s.tick, s.forwarded);
  }

  lemma ForwardedIsNotInHand(s: State, u: string)
    requires Places(s) && Forwards(s) && u in BundleIds(s.forwarded)
    ensures !InHand(s, u)
  {
    var n := |s.forwarded|;
    var all := BundleIds(s.forwarded + s.tick.InSending());
    var k :| 0 <= k < n && BundleIds(s.forwarded)[k] == u;
    assert all[k] == u;
    IdsConcat(s.tick.InSending(), s.tick.Won(), u);
    if s.tick.Sending? {
      assert all[n] == s.tick.winner.uuid;
    }
    assert u in BundleIds(s.tick.Won()) ==> IsAt(s.stage, u, Winning);
  }

  lemma StoppedFrame(P: Params, s: State, step: Step)
    requires Enabled(s, step) && s.tick.Stopped?
    ensures SameTick(s, Next(P, s, step))
  {
    TickFrame(P, s, step);
  }

  lemma FailStops(P: Params, states: seq<State>, steps: seq<Step>, k: nat)
    requires IsRun(P, states, steps) && k < |steps| && steps[k].SendFailed?
    ensures states[k + 1].tick.Stopped? && states[k + 1].forwarded == states[k].forwarded
  {
  }

  lemma RunStoppedFrame(P: Params, states: seq<State>, steps: seq<Step>, j: nat)
    requires IsRun(P, states, steps) && j < |steps| && states[j].tick.Stopped?
    ensures SameTick(states[j], states[j + 1])
  {
    StoppedFrame(P, states[j], steps[j]);
  }

  /** After a failed send the tick task is over, and sends nothing more. */
  lemma {:induction false} StopsForGood(P: Params, states: seq<State>, steps: seq<Step>, k: nat, i: nat)
    requires IsRun(P, states, steps) && k < i < |states| && k < |steps| && steps[k].SendFailed?
    ensures states[i].tick.Stopped? && states[i].forwarded == states[k].forwarded
    decreases i
  {
    if i == k + 1 {
      FailStops(P, states, steps, k);
    } else {
      StopsForGood(P, states, steps, k, i - 1);
      RunStoppedFrame(P, states, steps, i - 1);
    }
  }

  lemma FailedIsNotForwarded(P: Params, states: seq<State>, steps: seq<Step>, k: nat, i: nat, u: string)
    requires IsRun(P, states, steps) && k < i < |states| && k < |steps| && FailsAt(states[k], steps[k], u)
    ensures u !in BundleIds(states[i].forwarded)
  {
    StopsForGood(P, states, steps, k, i);
    RunInv(P, states, steps, k);
    SendingIsNotForwarded(states[k]);
  }

  lemma SendingIsNotForwarded(s: State)
    requires Places(s) && Forwards(s) && s.tick.Sending?
    ensures s.tick.winner.uuid !in BundleIds(s.forwarded)
  {
    var u := s.tick.winner.uuid;
    assert BundleIds(s.tick.InSending() + s.tick.Won())[0] == u;
    if u in BundleIds(s.forwarded) {
      ForwardedIsNotInHand(s, u);
    }
  }

  lemma RunForwardedIsNotInHand(P: Params, states: seq<State>, steps: seq<Step>, i: nat, u: string)
    requires IsRun(P, states, steps) && i < |states| && u in BundleIds(states[i].forwarded)
    ensures !InHand(states[i], u)
  {
    RunInv(P, states, steps, i);
    ForwardedIsNotInHand(states[i], u);
  }

  /** So an accepted bundle has been forwarded if and only if it is not in the tick task's
      hands and its send has not failed. */
  lemma ForwardedExactly(P: Params, states: seq<State>, steps: seq<Step>, i: nat, u: string)
    requires IsRun(P, states, steps) && i < |states|
    ensures u in BundleIds(states[i].forwarded)
       <==> IsAccepted(states[i].intent, u) && !InHand(states[i], u) && !FailedBefore(states, steps, i, u)
  {
    AcceptedIffTaken(P, states, steps, i, u);
    TakenSplits(states[i], u);
    if u in BundleIds(states[i].forwarded) {
      RunForwardedIsNotInHand(P, states, steps, i, u);
      forall k | 0 <= k < i ensures !FailsAt(states[k], steps[k], u) {
        if FailsAt(states[k], steps[k], u) {
          FailedIsNotForwarded(P, states, steps, k, i, u);
        }
      }
    }
  }
}
