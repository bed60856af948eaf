/** Where the entries of the pipeline's stores come from, in every run: who a bundle belongs
    to, what it was scored at and when, and since when it is tracked. */
module PipelineOrigins {
  import opened Common
  import opened Bundles
  import opened HubSpec
  import opened AuctionSpec
  import opened TrackerSpec
  import opened Pipeline
  import opened PipelineFrames
  import opened PipelineProof
  import opened PipelineTheorems
  import opened PipelineVerdicts

  // ----- owners -----

  /** A call is made on behalf of its searcher. */
  ghost predicate CalledFor(s: State, u: string, owner: string) {
    (u in s.calls && s.calls[u].owner == owner) || (u in s.reg && s.reg[u] == owner)
  }

  lemma CallerOwns(P: Params, s: State, step: Step, u: string, owner: string)
    requires Enabled(s, step) && OfCaller(step) && CalledFor(Next(P, s, step), u, owner)
    ensures CalledFor(s, u, owner) || (step.BeginSend? && step.uuid == u && step.owner == owner)
  {
    match step
    case Wait(_) =>
    case BeginSend(v, o, packets) => assert BeginSendStep(s, v, o, packets).reg == s.reg;
    case RegisterCall(v) => assert RegisterStep(s, v).reg == s.reg[v := s.calls[v].owner];
    case CountCall(v) => assert CountStep(s, v).reg == s.reg;
    case PushCall(v) => assert PushStep(P, s, v).reg == s.reg && PushStep(P, s, v).calls == s.calls;
  }

  predicate SameCalls(s: State, s': State) { s'.calls == s.calls && s'.reg == s.reg }

  lemma HubLeavesCalls(P: Params, s: State, step: Step)
    requires Enabled(s, step) && OfHub(step)
    ensures SameCalls(s, Next(P, s, step))
  {
    match step
    case ResolveNext(who) => assert SameCalls(s, ResolveStep(s, who));
    case DeliverNext(who) => assert SameCalls(s, DeliverStep(s, who));
    case PruneOwners =>
    case Subscribe(_) =>
    case ReadOne(o, i) => assert SameCalls(s, ReadStep(s, o, i));
    case CloseStream(o, i) => assert SameCalls(s, CloseStep(s, o, i));
  }

  lemma TickLeavesCalls(P: Params, s: State, step: Step)
    requires Enabled(s, step) && OfTick(step)
    ensures SameCalls(s, Next(P, s, step))
  {
    match step
    case StartTick =>
    case SetSim(outcome) => assert SameCalls(s, SetSimStep(s, outcome));
    case StartAuction => assert SameCalls(s, StartAuctionStep(P, s));
    case Drain => assert SameCalls(s, DrainStep(P, s));
    case FinishAuction =>
    case Hand => assert SameCalls(s, HandStep(P, s));
    case SendOk =>
    case SendFailed =>
    case EndTick =>
  }

  lemma AnswerLeavesCalls(P: Params, s: State, reply: Option<seq<Option<Status>>>)
    requires s.poll.Asking?
    ensures SameCalls(s, AnswerStep(P, s, reply))
  {
  }

  lemma OthersLeaveCalls(P: Params, s: State, step: Step)
    requires Enabled(s, step) && !OfCaller(step)
    ensures SameCalls(s, Next(P, s, step))
  {
    if OfHub(step) {
      HubLeavesCalls(P, s, step);
    } else if OfTick(step) {
      TickLeavesCalls(P, s, step);
    } else if step.Answer? {
      AnswerLeavesCalls(P, s, step.reply);
    }
  }

  lemma StepOwns(P: Params, s: State, step: Step, u: string, owner: string)
    requires Enabled(s, step) && CalledFor(Next(P, s, step), u, owner)
    ensures CalledFor(s, u, owner) || (step.BeginSend? && step.uuid == u && step.owner == owner)
  {
    if OfCaller(step) {
      CallerOwns(P, s, step, u, owner);
    } else {
      OthersLeaveCalls(P, s, step);
    }
  }

  lemma RunStepOwns(P: Params, states: seq<State>, steps: seq<Step>, j: nat, u: string, owner: string)
    requires IsRun(P, states, steps) && j < |steps| && CalledFor(states[j + 1], u, owner)
    ensures CalledFor(states[j], u, owner) || (steps[j].BeginSend? && steps[j].uuid == u && steps[j].owner == owner)
  {
    StepOwns(P, states[j], steps[j], u, owner);
  }

  lemma {:induction false} CallOrigin(P: Params, states: seq<State>, steps: seq<Step>, i: nat, u: string, owner: string)
    returns (k: nat)
    requires IsRun(P, states, steps) && i < |states| && CalledFor(states[i], u, owner)
    ensures k < i && k < |steps| && steps[k].BeginSend? && steps[k].uuid == u && steps[k].owner == owner
  {
    assert i > 0;
    RunStepOwns(P, states, steps, i - 1, u, owner);
    if CalledFor(states[i - 1], u, owner) {
      k := CallOrigin(P, states, steps, i - 1, u, owner);
    } else {
      k := i - 1;
    }
  }

  /** In every run: the searcher a bundle is registered to is the one who sent it. */
  lemma OwnerOrigin(P: Params, states: seq<State>, steps: seq<Step>, i: nat, u: string) returns (k: nat)
    requires IsRun(P, states, steps) && i < |states| && u in states[i].reg
    ensures k < i && k < |steps| && steps[k].BeginSend? && steps[k].uuid == u && steps[k].owner == states[i].reg[u]
  {
    k := CallOrigin(P, states, steps, i, u, states[i].reg[u]);
  }

  // ----- buffered bundles -----

  /** Pushed at `now`, with the score of its bundle. */
  ghost predicate PushedAs(P: Params, now: nat, b: PendingBundle) {
    b.received == now && b.tip == P.score(b.bundle).0 && b.estCu == P.score(b.bundle).1
  }

  /** `b` without its simulation. */
  function Bare(b: PendingBundle): PendingBundle { b.(sim := None) }

  ghost predicate Buffers(s: State, b: PendingBundle) {
    exists c :: c in s.buffer && Bare(c) == b
  }

  lemma {:induction false} SimulationKeepsBare(buffer: seq<PendingBundle>, u: string, o: SimOutcome, b: PendingBundle)
    requires exists c :: c in WithSimulation(buffer, u, o) && Bare(c) == b
    ensures exists c :: c in buffer && Bare(c) == b
  {
    var c :| c in WithSimulation(buffer, u, o) && Bare(c) == b;
    if Bare(buffer[0]) != b {
      if buffer[0].bundle.uuid == u {
        assert c in buffer[1..];
      } else {
        assert c in WithSimulation(buffer[1..], u, o);
        SimulationKeepsBare(buffer[1..], u, o, b);
      }
    }
  }

  lemma PushBuffers(P: Params, s: State, u: string, b: PendingBundle)
    requires u in s.counted && Buffers(PushStep(P, s, u), b)
    ensures Buffers(s, b) || PushedAs(P, s.now, b)
  {
    var (tip, cu) := P.score(s.counted[u]);
    var c :| c in PushStep(P, s, u).buffer && Bare(c) == b;
    if c !in s.buffer {
      assert c == PendingBundle(s.counted[u], tip, cu, s.now, None);
    }
  }

  lemma TickBuffers(P: Params, s: State, step: Step, b: PendingBundle)
    requires Enabled(s, step) && OfTick(step) && Buffers(Next(P, s, step), b)
    ensures Buffers(s, b)
  {
    match step
    case StartTick =>
    case SetSim(outcome) =>
      assert SetSimStep(s, outcome).buffer == WithSimulation(s.buffer, s.tick.queue[0], outcome);
      SimulationKeepsBare(s.buffer, s.tick.queue[0], outcome, b);
    case StartAuction =>
    case Drain => assert DrainStep(P, s).buffer == s.buffer;
    case FinishAuction =>
    case Hand => assert HandStep(P, s).buffer == s.buffer;
    case SendOk =>
    case SendFailed =>
    case EndTick =>
  }

  lemma StepBuffers(P: Params, s: State, step: Step, b: PendingBundle)
    requires Enabled(s, step) && Buffers(Next(P, s, step), b)
    ensures Buffers(s, b) || (step.PushCall? && PushedAs(P, s.now, b))
  {
    if step.PushCall? {
      PushBuffers(P, s, step.uuid, b);
    } else if OfTick(step) {
      TickBuffers(P, s, step, b);
    } else if OfHub(step) {
      HubFrame(P, s, step);
    } else if OfCaller(step) {
      CallerFrame(P, s, step);
    } else {
      PollFrame(P, s, step);
    }
  }

  lemma RunStepBuffers(P: Params, states: seq<State>, steps: seq<Step>, j: nat, b: PendingBundle)
    requires IsRun(P, states, steps) && j < |steps| && Buffers(states[j + 1], b)
    ensures Buffers(states[j], b) || (steps[j].PushCall? && PushedAs(P, states[j].now, b))
  {
    StepBuffers(P, states[j], steps[j], b);
  }

  lemma {:induction false} BareOrigin(P: Params, states: seq<State>, steps: seq<Step>, i: nat, b: PendingBundle)
    returns (k: nat)
    requires IsRun(P, states, steps) && i < |states| && Buffers(states[i], b)
    ensures k < i && k < |steps| && steps[k].PushCall? && PushedAs(P, states[k].now, b)
  {
    assert i > 0;
    RunStepBuffers(P, states, steps, i - 1, b);
    if Buffers(states[i - 1], b) {
      k := BareOrigin(P, states, steps, i - 1, b);
    } else {
      k := i - 1;
    }
  }

  /** In every run: a buffered bundle carries the score of its packets and the time at which
      it was pushed. */
  lemma BufferOrigin(P: Params, states: seq<State>, steps: seq<Step>, i: nat, b: PendingBundle) returns (k: nat)
    requires IsRun(P, states, steps) && i < |states| && b in states[i].buffer
    ensures k < i && k < |steps| && steps[k].PushCall? && b.received == states[k].now
    ensures (b.tip, b.estCu) == P.score(b.bundle)
  {
    assert Buffers(states[i], Bare(b));
    k := BareOrigin(P, states, steps, i, Bare(b));
  }

  // ----- tracked bundles -----

  /** Handed over at `now` with the signatures of its bundle. */
  ghost predicate HandedAs(P: Params, s: State, t: Tracked) {
    && P.track && s.tick.Handing? && s.tick.left != [] && s.tick.left[0].uuid == t.uuid
    && t.signatures == P.signatures(s.tick.left[0]) && t.since == s.now
  }

  function Unmarked(t: Tracked): Tracked { t.(processedEmitted := false) }

  ghost predicate Tracks(s: State, t: Tracked) {
    exists r :: r in s.tracked && Unmarked(r) == t
  }

  lemma HandTracks(P: Params, s: State, t: Tracked)
    requires s.tick.Handing? && s.tick.left != [] && Tracks(HandStep(P, s), t)
    ensures Tracks(s, t) || HandedAs(P, s, t)
  {
    var r :| r in HandStep(P, s).tracked && Unmarked(r) == t;
  }

  lemma AnswerTracks(P: Params, s: State, reply: Option<seq<Option<Status>>>, t: Tracked)
    requires s.poll.Asking? && Tracks(AnswerStep(P, s, reply), t)
    ensures Tracks(s, t)
  {
    if reply.Some? {
      var j := JudgeBy(Evidence(Known(s.poll.batch, reply.value), s.now, P.deadline));
      var r :| r in Remaining(s.tracked, j) && Unmarked(r) == t;
      RemainingMember(s.tracked, j, r);
      var was :| was in s.tracked && !Leaves(was, j) && r == Mark(was, j);
      assert Unmarked(was) == t;
    }
  }

  lemma StepTracks(P: Params, s: State, step: Step, t: Tracked)
    requires Enabled(s, step) && Tracks(Next(P, s, step), t)
    ensures Tracks(s, t) || (step.Hand? && HandedAs(P, s, t))
  {
    if step.Hand? {
      HandTracks(P, s, t);
    } else if step.Answer? {
      AnswerTracks(P, s, step.reply, t);
    } else if !step.Ask? {
      TrackerFrame(P, s, step);
    }
  }

  lemma {:induction false} UnmarkedOrigin(P: Params, states: seq<State>, steps: seq<Step>, i: nat, t: Tracked)
    returns (k: nat)
    requires IsRun(P, states, steps) && i < |states| && Tracks(states[i], t)
    ensures k < i && k < |steps| && steps[k].Hand? && HandedAs(P, states[k], t)
  {
    assert i > 0;
    StepTracks(P, states[i - 1], steps[i - 1], t);
    if Tracks(states[i - 1], t) {
      k := UnmarkedOrigin(P, states, steps, i - 1, t);
    } else {
      k := i - 1;
    }
  }

  /** In every run: a tracked entry was handed over by the tick task, with the signatures of
      that winner, and is tracked since that moment. */
  lemma TrackedOrigin(P: Params, states: seq<State>, steps: seq<Step>, i: nat, t: Tracked) returns (k: nat)
    requires IsRun(P, states, steps) && i < |states| && t in states[i].tracked
    ensures k < i && k < |steps| && steps[k].Hand? && states[k].tick.Handing? && states[k].tick.left != []
    ensures P.track && t.uuid == states[k].tick.left[0].uuid
    ensures t.signatures == P.signatures(states[k].tick.left[0]) && t.since == states[k].now
  {
    assert Tracks(states[i], Unmarked(t));
    k := UnmarkedOrigin(P, states, steps, i, Unmarked(t));
  }

  // ----- nobody is forgotten -----

  /** Finalized or dropped has been decided for the bundle. */
  predicate Resolved(intent: History, u: string) {
    Finalized in Of(intent, u) || Dropped in Of(intent, u)
  }

  lemma AnswerResolves(P: Params, s: State, reply: Option<seq<Option<Status>>>, t: Tracked)
    requires s.poll.Asking? && Tracks(s, t)
    ensures Tracks(AnswerStep(P, s, reply), t) || Resolved(AnswerStep(P, s, reply).intent, t.uuid)
  {
    if reply.Some? {
      var j := JudgementOf(P, s, reply.value);
      var r :| r in s.tracked && Unmarked(r) == t;
      if Leaves(r, j) {
        var p := Announcement(r, j).value;
        SweepAnnounces(s.tracked, j, p);
        AnnouncedIsDecided(s.intent, Publications(s.tracked, j), p);
      } else {
        RemainingMember(s.tracked, j, Mark(r, j));
        assert Unmarked(Mark(r, j)) == t;
      }
    }
  }

  lemma HandKeeps(P: Params, s: State, t: Tracked)
    requires s.tick.Handing? && s.tick.left != [] && Tracks(s, t)
    ensures Tracks(HandStep(P, s), t)
  {
    var r :| r in s.tracked && Unmarked(r) == t;
    assert r in HandStep(P, s).tracked;
  }

  lemma StepResolves(P: Params, s: State, step: Step, t: Tracked)
    requires Enabled(s, step) && Tracks(s, t)
    ensures Tracks(Next(P, s, step), t) || Resolved(Next(P, s, step).intent, t.uuid)
  {
    if step.Hand? {
      HandKeeps(P, s, t);
    } else if step.Answer? {
      AnswerResolves(P, s, step.reply, t);
    } else if !step.Ask? {
      TrackerFrame(P, s, step);
    }
  }

  lemma ResolvedStays(P: Params, states: seq<State>, steps: seq<Step>, i: nat, u: string)
    requires IsRun(P, states, steps) && i < |steps| && Resolved(states[i].intent, u)
    ensures Resolved(states[i + 1].intent, u)
  {
    RunStepExtends(P, states, steps, i);
    assert Of(states[i].intent, u) <= Of(states[i + 1].intent, u);
  }

  lemma HandAdds(P: Params, s: State)
    requires s.tick.Handing? && s.tick.left != [] && P.track && P.signatures(s.tick.left[0]) != []
    ensures Tracks(HandStep(P, s), Tracked(s.tick.left[0].uuid, P.signatures(s.tick.left[0]), s.now, false))
  {
    var t := Tracked(s.tick.left[0].uuid, P.signatures(s.tick.left[0]), s.now, false);
    assert t in HandStep(P, s).tracked && Unmarked(t) == t;
  }

  /** In every run with a tracker: a winner that has signatures is tracked from its hand-over
      on, with those signatures and since that moment, until it is decided finalized or
      dropped. */
  lemma {:induction false} TrackedUntilResolved(P: Params, states: seq<State>, steps: seq<Step>, k: nat, i: nat)
    requires IsRun(P, states, steps) && k < i < |states| && k < |steps| && steps[k].Hand? && P.track
    requires states[k].tick.Handing? && states[k].tick.left != [] && P.signatures(states[k].tick.left[0]) != []
    ensures var w := states[k].tick.left[0];
      Tracks(states[i], Tracked(w.uuid, P.signatures(w), states[k].now, false)) || Resolved(states[i].intent, w.uuid)
    decreases i
  {
    var w := states[k].tick.left[0];
    if i == k + 1 {
      HandAdds(P, states[k]);
    } else {
      TrackedUntilResolved(P, states, steps, k, i - 1);
      if Resolved(states[i - 1].intent, w.uuid) {
        ResolvedStays(P, states, steps, i - 1, w.uuid);
      } else {
        StepResolves(P, states[i - 1], steps[i - 1], Tracked(w.uuid, P.signatures(w), states[k].now, false));
      }
    }
  }
}
