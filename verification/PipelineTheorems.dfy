/** What holds in every run of the pipeline, however its tasks are interleaved. */
module PipelineTheorems {
  import opened Common
  import opened Bundles
  import opened HubSpec
  import opened AuctionSpec
  import opened TrackerSpec
  import opened Pipeline
  import opened PipelineInvariant
  import opened PipelineProof
  import opened PipelineFrames

  // ----- every reachable state satisfies the invariant -----

  lemma InitInv()
    ensures Inv(Init())
  {
  }

  predicate OfCall(step: Step) {
    step.BeginSend? || step.RegisterCall?
  }

  predicate OfSubmission(step: Step) {
    step.CountCall? || step.PushCall?
  }

  predicate OfSimulation(step: Step) {
    step.StartTick? || step.SetSim? || step.StartAuction?
  }

  predicate OfAuction(step: Step) {
    step.Drain? || step.FinishAuction? || step.Hand?
  }

  predicate OfSending(step: Step) {
    step.SendOk? || step.SendFailed? || step.EndTick?
  }

  predicate OfPublishing(step: Step) {
    step.ResolveNext? || step.DeliverNext?
  }

  predicate OfStreams(step: Step) {
    step.ReadOne? || step.CloseStream?
  }

  lemma CallStepInv(P: Params, s: State, step: Step)
    requires Inv(s) && Enabled(s, step) && OfCall(step)
    ensures Inv(Next(P, s, step))
  {
    match step
    case BeginSend(u, owner, packets) => KeepsBeginSend(s, u, owner, packets);
    case RegisterCall(u) => KeepsRegister(s, u);
  }

  lemma SubmissionStepInv(P: Params, s: State, step: Step)
    requires Inv(s) && Enabled(s, step) && OfSubmission(step)
    ensures Inv(Next(P, s, step))
  {
    match step
    case CountCall(u) => KeepsCount(s, u);
    case PushCall(u) => KeepsPush(P, s, u);
  }

  lemma SimulationStepInv(P: Params, s: State, step: Step)
    requires Inv(s) && Enabled(s, step) && OfSimulation(step)
    ensures Inv(Next(P, s, step))
  {
    match step
    case StartTick => KeepsStartTick(P, s);
    case SetSim(outcome) => KeepsSetSim(s, outcome);
    case StartAuction => KeepsStartAuction(P, s);
  }

  lemma AuctionStepInv(P: Params, s: State, step: Step)
    requires Inv(s) && Enabled(s, step) && OfAuction(step)
    ensures Inv(Next(P, s, step))
  {
    match step
    case Drain => KeepsDrain(P, s);
    case FinishAuction => KeepsFinishAuction(s);
    case Hand => KeepsHand(P, s);
  }

  lemma SendingStepInv(P: Params, s: State, step: Step)
    requires Inv(s) && Enabled(s, step) && OfSending(step)
    ensures Inv(Next(P, s, step))
  {
    match step
    case SendOk => KeepsSendOk(s);
    case SendFailed => KeepsSendFailed(s);
    case EndTick => KeepsEndTick(s);
  }

  lemma PollStepInv(P: Params, s: State, step: Step)
    requires Inv(s) && Enabled(s, step) && OfPoll(step)
    ensures Inv(Next(P, s, step))
  {
    match step
    case Ask => KeepsAsk(s);
    case Answer(reply) => KeepsAnswer(P, s, reply);
  }

  lemma PublishingStepInv(P: Params, s: State, step: Step)
    requires Inv(s) && Enabled(s, step) && OfPublishing(step)
    ensures Inv(Next(P, s, step))
  {
    match step
    case ResolveNext(who) => KeepsResolve(s, who);
    case DeliverNext(who) => KeepsDeliver(s, who);
  }

  lemma StreamStepInv(P: Params, s: State, step: Step)
    requires Inv(s) && Enabled(s, step) && OfStreams(step)
    ensures Inv(Next(P, s, step))
  {
    match step
    case ReadOne(o, i) => KeepsReadOne(s, o, i);
    case CloseStream(o, i) => KeepsCloseStream(s, o, i);
  }

  lemma KeepsReadOne(s: State, o: string, i: nat)
    requires Inv(s) && o in s.hub.subscribers && i < |s.hub.subscribers[o]|
    requires s.hub.subscribers[o][i].read < |s.hub.subscribers[o][i].sent|
    ensures Inv(ReadStep(s, o, i))
  {
    var c := s.hub.subscribers[o][i];
    var c' := c.(read := c.read + 1);
    assert ReadStep(s, o, i) == WithStream(s, o, i, c');
    KeepsStreamUpdate(s, o, i, c');
  }

  lemma KeepsCloseStream(s: State, o: string, i: nat)
    requires Inv(s) && o in s.hub.subscribers && i < |s.hub.subscribers[o]|
    ensures Inv(CloseStep(s, o, i))
  {
    StreamIsRead(s, o, i);
    var c' := s.hub.subscribers[o][i].(open := false);
    assert CloseStep(s, o, i) == WithStream(s, o, i, c');
    KeepsStreamUpdate(s, o, i, c');
  }

  lemma WaitInv(P: Params, s: State, step: Step)
    requires Inv(s) && step.Wait?
    ensures Inv(Next(P, s, step))
  {
  }

  /** Every step of every task keeps the invariant. */
  lemma StepInv(P: Params, s: State, step: Step)
    requires Inv(s) && Enabled(s, step)
    ensures Inv(Next(P, s, step))
  {
    if OfCall(step) {
      CallStepInv(P, s, step);
    } else if OfSubmission(step) {
      SubmissionStepInv(P, s, step);
    } else if OfSimulation(step) {
      SimulationStepInv(P, s, step);
    } else if OfAuction(step) {
      AuctionStepInv(P, s, step);
    } else if OfSending(step) {
      SendingStepInv(P, s, step);
    } else if OfPoll(step) {
      PollStepInv(P, s, step);
    } else if OfPublishing(step) {
      PublishingStepInv(P, s, step);
    } else if OfStreams(step) {
      StreamStepInv(P, s, step);
    } else if step.Subscribe? {
      KeepsSubscribe(s, step.owner);
    } else if step.Wait? {
      WaitInv(P, s, step);
    } else {
      KeepsPrune(P, s);
    }
  }

  lemma StreamIsRead(s: State, o: string, i: nat)
    requires Streams(s) && o in s.hub.subscribers && i < |s.hub.subscribers[o]|
    ensures s.hub.subscribers[o][i].read <= |s.hub.subscribers[o][i].sent|
  {
    assert s.hub.subscribers[o][i] in s.hub.subscribers[o];
  }

  lemma {:induction false} RunInv(P: Params, states: seq<State>, steps: seq<Step>, i: nat)
    requires IsRun(P, states, steps) && i < |states|
    ensures Inv(states[i])
  {
    if i == 0 {
      InitInv();
    } else {
      RunInv(P, states, steps, i - 1);
      StepInv(P, states[i - 1], steps[i - 1]);
    }
  }

  // ----- result lifecycle -----

  lemma LifecyclePrefix(w: seq<ResultKind>, v: seq<ResultKind>)
    requires Lifecycle(v) && w <= v
    ensures Lifecycle(w)
  {
  }

  lemma StageLifecycle(stage: Stage, w: seq<ResultKind>)
    requires StageAllows(stage, w)
    ensures Lifecycle(w)
  {
  }

  lemma LifecycleOf(s: State, u: string)
    requires Intents(s) && Logs(s)
    ensures Lifecycle(Of(s.intent, u)) && Lifecycle(Of(s.log, u))
  {
    if u in s.log {
      StageLifecycle(s.stage[u], s.intent[u]);
      LifecyclePrefix(s.log[u], s.intent[u]);
    }
  }

  /** In every interleaving, the results resolved for a bundle are a prefix of `Rejected`
      or of `Accepted Processed? (Finalized | Dropped)`. */
  lemma ResultLifecycle(P: Params, states: seq<State>, steps: seq<Step>, i: nat, u: string)
    requires IsRun(P, states, steps) && i < |states|
    ensures Lifecycle(Of(states[i].log, u))
  {
    RunInv(P, states, steps, i);
    LifecycleOf(states[i], u);
  }

  /** No element but the last is terminal. */
  ghost predicate NothingAfterTerminal(w: seq<ResultKind>) {
    forall k :: 0 <= k < |w| - 1 ==> !w[k].Terminal()
  }

  lemma {:induction false} SubsequenceKeepsEnd(w: seq<ResultKind>, v: seq<ResultKind>)
    requires Subsequence(w, v) && NothingAfterTerminal(v)
    ensures NothingAfterTerminal(w)
  {
    if w != [] {
      assert NothingAfterTerminal(v[1..]) by {
        assert forall k :: 0 <= k < |v[1..]| ==> v[1..][k] == v[k + 1];
      }
      if w[0] == v[0] {
        SubsequenceKeepsEnd(w[1..], v[1..]);
        assert forall k :: 0 < k < |w| ==> w[k] == w[1..][k - 1];
        if |w| > 1 {
          SubsequenceMember(w[1..], v[1..], w[1]);
        }
      } else {
        SubsequenceKeepsEnd(w, v[1..]);
      }
    }
  }

  /** In a reachable state: what the streams and the histories say of one bundle. */
  lemma StreamShows(s: State, owner: string, c: Channel, u: string)
    requires Streams(s) && Intents(s) && Logs(s)
    requires owner in s.hub.subscribers && c in s.hub.subscribers[owner]
    ensures Subsequence(ResultsFor(c.sent, u), Of(s.log, u))
    ensures NothingAfterTerminal(ResultsFor(c.sent, u))
    ensures forall m :: m in c.sent ==> m.bundleId in s.reg && s.reg[m.bundleId] == owner
  {
    LifecycleOf(s, u);
    assert StreamOk(c, owner, s.log, s.tickOut.flight, s.pollOut.flight, s.reg);
    ShownInOrder(c, owner, s.log, s.tickOut.flight, s.pollOut.flight, s.reg, u);
  }

  lemma ShownInOrder(
    c: Channel, owner: string, log: History, f: Option<Flight>, g: Option<Flight>,
    reg: map<string, string>, u: string)
    requires StreamOk(c, owner, log, f, g, reg) && Lifecycle(Of(log, u))
    ensures Subsequence(ResultsFor(c.sent, u), Of(log, u))
    ensures NothingAfterTerminal(ResultsFor(c.sent, u))
  {
    var offered := Offered(log, f, g, u);
    SubsequencePrefix(offered, Of(log, u));
    SubsequenceTrans(ResultsFor(c.sent, u), offered, Of(log, u));
    SubsequenceKeepsEnd(ResultsFor(c.sent, u), Of(log, u));
  }

  /** Every stream shows, for each bundle, an in-order part of the resolved results with
      nothing after a terminal one; and it shows only bundles registered to its searcher. */
  lemma StreamLifecycle(P: Params, states: seq<State>, steps: seq<Step>, i: nat, owner: string, c: Channel, u: string)
    requires IsRun(P, states, steps) && i < |states|
    requires owner in states[i].hub.subscribers && c in states[i].hub.subscribers[owner]
    ensures Subsequence(ResultsFor(c.sent, u), Of(states[i].log, u))
    ensures NothingAfterTerminal(ResultsFor(c.sent, u))
    ensures forall m :: m in c.sent ==> m.bundleId in states[i].reg && states[i].reg[m.bundleId] == owner
  {
    RunInv(P, states, steps, i);
    StreamShows(states[i], owner, c, u);
  }

  /** While a bundle's owner is on record, nothing decided for it is lost: everything but
      the publication still to do has been resolved. */
  lemma NothingIsLost(P: Params, states: seq<State>, steps: seq<Step>, i: nat, u: string)
    requires IsRun(P, states, steps) && i < |states|
    requires u in states[i].hub.owners && !InTodo(states[i].tickOut.todo, states[i].pollOut.todo, u)
    ensures Of(states[i].log, u) == Of(states[i].intent, u)
  {
    RunInv(P, states, steps, i);
  }

  // ----- stage exclusivity -----

  /** The uuids held by the buffer, the ranking, the undelivered winners and the tracker. */
  function Held(s: State): seq<string> {
    Uuids(s.buffer) + Uuids(s.tick.Rest()) + BundleIds(s.tick.Won()) + TrackedIds(s.tracked)
  }

  lemma {:induction false} DistinctConcat(a: seq<string>, b: seq<string>)
    requires Distinct(a) && Distinct(b) && forall u :: u in a ==> u !in b
    ensures Distinct(a + b)
  {
    forall i, j | 0 <= i < j < |a + b| ensures (a + b)[i] != (a + b)[j] {
      if i < |a| <= j {
        assert a[i] in a && b[j - |a|] in b;
      }
    }
  }

  /** At every reachable state a uuid is in at most one place: in a call, in the buffer, in
      the ranking, among the winners, in the tracker, or nowhere any more. */
  lemma StageExclusivity(P: Params, states: seq<State>, steps: seq<Step>, i: nat)
    requires IsRun(P, states, steps) && i < |states|
    ensures var s := states[i];
      && Distinct(Held(s))
      && (forall u :: u in s.calls ==> u !in s.counted)
      && (forall u :: u in s.calls || u in s.counted ==> u !in Held(s))
  {
    RunInv(P, states, steps, i);
    PlacesAreDisjoint(states[i]);
  }

  lemma PlacesAreDisjoint(s: State)
    requires Places(s)
    ensures Distinct(Held(s))
    ensures forall u :: u in s.calls ==> u !in s.counted
    ensures forall u :: u in s.calls || u in s.counted ==> u !in Held(s)
  {
    var b, r, w, t := Uuids(s.buffer), Uuids(s.tick.Rest()), BundleIds(s.tick.Won()), TrackedIds(s.tracked);
    HoldsApart(b, r, s.stage, Buffered, Ranking);
    HoldsApart(b, w, s.stage, Buffered, Winning);
    HoldsApart(b, t, s.stage, Buffered, Tracking);
    HoldsApart(r, w, s.stage, Ranking, Winning);
    HoldsApart(r, t, s.stage, Ranking, Tracking);
    HoldsApart(w, t, s.stage, Winning, Tracking);
    DistinctConcat(b, r);
    DistinctConcat(b + r, w);
    DistinctConcat(b + r + w, t);
    forall u | u in s.calls || u in s.counted ensures u !in Held(s) && (u in s.calls ==> u !in s.counted) {
      assert IsAt(s.stage, u, Calling) || IsAt(s.stage, u, Counted);
    }
  }

  lemma HoldsApart(a: seq<string>, b: seq<string>, stage: map<string, Stage>, x: Stage, y: Stage)
    requires Holds(a, stage, x) && Holds(b, stage, y) && x != y
    ensures forall u :: u in a ==> u !in b
  {
    forall u | u in a ensures u !in b {
      assert IsAt(stage, u, x);
    }
  }

  /** The auction task and the poll task never publish for the same bundle at once. */
  lemma PublishersAreDisjoint(P: Params, states: seq<State>, steps: seq<Step>, i: nat, p: Publication, q: Publication)
    requires IsRun(P, states, steps) && i < |states|
    requires states[i].tickOut.Active(p) && states[i].pollOut.Active(q)
    ensures p.uuid != q.uuid
  {
    RunInv(P, states, steps, i);
    TasksAreDisjoint(states[i], p, q);
  }

  // ----- histories over a run -----

  /** Nothing that was recorded for a uuid is ever taken back. */
  ghost predicate Extends(s: State, s': State) {
    && (forall u :: Of(s.log, u) <= Of(s'.log, u))
    && (forall u :: Of(s.intent, u) <= Of(s'.intent, u))
    && (forall u :: u in s.reg ==> u in s'.reg && s'.reg[u] == s.reg[u])
  }

  lemma {:induction false} AnnounceExtends(intent: History, pubs: seq<Publication>, u: string)
    ensures Of(intent, u) <= Of(Announce(intent, pubs), u)
  {
    if pubs != [] {
      AnnounceExtends(intent, pubs[..|pubs| - 1], u);
    }
  }

  lemma AnswerExtends(P: Params, s: State, reply: Option<seq<Option<Status>>>)
    requires s.poll.Asking?
    ensures Extends(s, AnswerStep(P, s, reply))
  {
    if reply.Some? {
      var j := JudgeBy(Evidence(Known(s.poll.batch, reply.value), s.now, P.deadline));
      forall u ensures Of(s.intent, u) <= Of(Announce(s.intent, Publications(s.tracked, j)), u) {
        AnnounceExtends(s.intent, Publications(s.tracked, j), u);
      }
    }
  }

  lemma RegisterExtends(s: State, u: string)
    requires Calls(s) && u in s.calls && !s.calls[u].registered
    ensures Extends(s, RegisterStep(s, u))
  {
  }

  lemma BeginSendExtends(s: State, u: string, owner: string, packets: Option<seq<Packet>>)
    requires Intents(s) && Logs(s) && u !in s.stage
    ensures Extends(s, BeginSendStep(s, u, owner, packets))
  {
  }

  lemma SetSimExtends(s: State, outcome: SimOutcome)
    requires s.tick.Simulating? && s.tick.queue != []
    ensures Extends(s, SetSimStep(s, outcome))
  {
  }

  lemma DrainExtends(P: Params, s: State)
    requires s.tick.Draining? && s.tick.rest != []
    ensures Extends(s, DrainStep(P, s))
  {
  }

  lemma ResolveExtends(s: State, who: Who)
    requires OutboxOf(s, who).todo != []
    ensures Extends(s, ResolveStep(s, who))
  {
  }

  /** Steps that leave every history as it is. */
  predicate OffRecord(step: Step) {
    !OfCall(step) && !step.SetSim? && !step.Drain? && !step.Answer? && !step.ResolveNext?
  }

  lemma OffRecordExtends(P: Params, s: State, step: Step)
    requires Enabled(s, step) && OffRecord(step)
    ensures Extends(s, Next(P, s, step))
  {
    var s' := Next(P, s, step);
    assert s'.log == s.log && s'.intent == s.intent && s'.reg == s.reg;
  }

  lemma OnRecordExtends(P: Params, s: State, step: Step)
    requires Calls(s) && Intents(s) && Logs(s) && Enabled(s, step) && !OffRecord(step)
    ensures Extends(s, Next(P, s, step))
  {
    match step
    case BeginSend(u, owner, packets) => BeginSendExtends(s, u, owner, packets);
    case RegisterCall(u) => RegisterExtends(s, u);
    case SetSim(outcome) => SetSimExtends(s, outcome);
    case Drain => DrainExtends(P, s);
    case Answer(reply) => AnswerExtends(P, s, reply);
    case ResolveNext(who) => ResolveExtends(s, who);
  }

  lemma StepExtends(P: Params, s: State, step: Step)
    requires Inv(s) && Enabled(s, step)
    ensures Extends(s, Next(P, s, step))
  {
    if OffRecord(step) {
      OffRecordExtends(P, s, step);
    } else {
      OnRecordExtends(P, s, step);
    }
  }

  lemma RunStepExtends(P: Params, states: seq<State>, steps: seq<Step>, i: nat)
    requires IsRun(P, states, steps) && i < |steps|
    ensures Extends(states[i], states[i + 1])
  {
    RunInv(P, states, steps, i);
    StepExtends(P, states[i], steps[i]);
  }

  ghost predicate ExtendsAt(states: seq<State>, k: nat) {
    k + 1 < |states| ==> Extends(states[k], states[k + 1])
  }

  lemma {:induction false} ChainExtends(states: seq<State>, i: nat, j: nat)
    requires i <= j < |states| && forall k: nat :: ExtendsAt(states, k)
    ensures Extends(states[i], states[j])
    decreases j
  {
    if i < j {
      ChainExtends(states, i, j - 1);
      assert ExtendsAt(states, j - 1);
      ExtendsTrans(states[i], states[j - 1], states[j]);
    }
  }

  lemma RunExtends(P: Params, states: seq<State>, steps: seq<Step>, i: nat, j: nat)
    requires IsRun(P, states, steps) && i <= j < |states|
    ensures Extends(states[i], states[j])
  {
    forall k: nat ensures ExtendsAt(states, k) {
      if k < |steps| {
        RunStepExtends(P, states, steps, k);
      }
    }
    ChainExtends(states, i, j);
  }

  lemma ExtendsTrans(a: State, b: State, c: State)
    requires Extends(a, b) && Extends(b, c)
    ensures Extends(a, c)
  {
    forall u ensures Of(a.log, u) <= Of(c.log, u) && Of(a.intent, u) <= Of(c.intent, u) {
      assert Of(a.log, u) <= Of(b.log, u) <= Of(c.log, u);
      assert Of(a.intent, u) <= Of(b.intent, u) <= Of(c.intent, u);
    }
  }

  /** Of two histories of one bundle, one a prefix of the other: a simulation failure in
      the one rules out an acceptance in the other. */
  lemma NeverBoth(a: seq<ResultKind>, b: seq<ResultKind>)
    requires Lifecycle(a) && Lifecycle(b) && SimFailure in a && (a <= b || b <= a)
    ensures b == [] || b == [SimFailure]
  {
    assert a == [SimFailure];
  }

  lemma NeverAccepted(s: State, u: string)
    requires Logs(s) && Forwards(s)
    requires Of(s.intent, u) == [] || Of(s.intent, u) == [SimFailure]
    ensures Accepted(0) !in Of(s.intent, u) && Accepted(0) !in Of(s.log, u)
    ensures u !in BundleIds(s.forwarded)
  {
    LogWithinIntent(s, u);
    if u in BundleIds(s.forwarded) {
      ForwardedIsAccepted(s, u);
    }
  }

  lemma RunComparable(P: Params, states: seq<State>, steps: seq<Step>, i: nat, j: nat, u: string)
    requires IsRun(P, states, steps) && i < |states| && j < |states|
    ensures Of(states[i].intent, u) <= Of(states[j].intent, u) || Of(states[j].intent, u) <= Of(states[i].intent, u)
  {
    if i <= j {
      RunExtends(P, states, steps, i, j);
    } else {
      RunExtends(P, states, steps, j, i);
    }
  }

  lemma RunLifecycle(P: Params, states: seq<State>, steps: seq<Step>, i: nat, u: string)
    requires IsRun(P, states, steps) && i < |states|
    ensures Lifecycle(Of(states[i].intent, u))
  {
    RunInv(P, states, steps, i);
    LifecycleOf(states[i], u);
  }

  /** A bundle that was rejected after simulation is never accepted, neither later nor
      earlier, and never forwarded. */
  lemma SimFailureIsFinal(P: Params, states: seq<State>, steps: seq<Step>, i: nat, j: nat, u: string)
    requires IsRun(P, states, steps) && i < |states| && j < |states|
    requires SimFailure in Of(states[i].intent, u)
    ensures Accepted(0) !in Of(states[j].intent, u) && Accepted(0) !in Of(states[j].log, u)
    ensures u !in BundleIds(states[j].forwarded)
  {
    RunLifecycle(P, states, steps, i, u);
    RunLifecycle(P, states, steps, j, u);
    RunComparable(P, states, steps, i, j, u);
    NeverBoth(Of(states[i].intent, u), Of(states[j].intent, u));
    RunInv(P, states, steps, j);
    NeverAccepted(states[j], u);
  }

  lemma LogWithinIntent(s: State, u: string)
    requires Logs(s)
    ensures Of(s.log, u) <= Of(s.intent, u)
  {
  }

  lemma ForwardedIsAccepted(s: State, u: string)
    requires Forwards(s) && u in BundleIds(s.forwarded)
    ensures Of(s.intent, u) != [] && Of(s.intent, u)[0] == Accepted(0)
  {
    var k :| 0 <= k < |BundleIds(s.forwarded)| && BundleIds(s.forwarded)[k] == u;
    assert BundleIds(s.forwarded + s.tick.InSending())[k] == u;
  }

  lemma ForwardedIsDistinct(s: State)
    requires Forwards(s)
    ensures Distinct(BundleIds(s.forwarded))
  {
    var all := BundleIds(s.forwarded + s.tick.InSending());
    assert forall k :: 0 <= k < |s.forwarded| ==> BundleIds(s.forwarded)[k] == all[k];
  }

  /** No bundle is forwarded twice. */
  lemma ForwardedOnce(P: Params, states: seq<State>, steps: seq<Step>, i: nat)
    requires IsRun(P, states, steps) && i < |states|
    ensures Distinct(BundleIds(states[i].forwarded))
  {
    RunInv(P, states, steps, i);
    ForwardedIsDistinct(states[i]);
  }

  // ----- the interleaved auction is the auction -----

  /** Between the start of an auction and its end, the drained part has been selected
      exactly as `Select` selects it. */
  ghost predicate DrainsBy(P: Params, tick: Tick, ranked: seq<PendingBundle>) {
    && tick.Draining? && tick.done + tick.rest == ranked
    && var o := Select(tick.done, P.cfg.budget);
       tick.usedCu == o.usedCu && tick.winners == BundlesOf(o.winners)
  }

  /** The tick after one more iteration of the drain loop. */
  function DrainTick(tick: Tick, budget: u64): Tick
    requires tick.Draining? && tick.rest != []
  {
    var b := tick.rest[0];
    var fits := Fits(tick.usedCu, b, budget);
    Draining(tick.done + [b], tick.rest[1..], if fits then WrapAdd(tick.usedCu, b.Cu()) else tick.usedCu,
             if fits then tick.winners + [b.bundle] else tick.winners, tick.entered)
  }

  lemma DrainTickRefines(P: Params, tick: Tick, ranked: seq<PendingBundle>)
    requires tick.Draining? && tick.rest != [] && DrainsBy(P, tick, ranked)
    ensures DrainsBy(P, DrainTick(tick, P.cfg.budget), ranked)
  {
    var b := tick.rest[0];
    SelectSnoc(tick.done, b, P.cfg.budget);
    assert tick.done + [b] + tick.rest[1..] == ranked;
  }

  lemma DrainRefines(P: Params, s: State, ranked: seq<PendingBundle>)
    requires s.tick.Draining? && s.tick.rest != [] && DrainsBy(P, s.tick, ranked)
    ensures DrainsBy(P, DrainStep(P, s).tick, ranked)
  {
    DrainTickRefines(P, s.tick, ranked);
    assert DrainStep(P, s).tick == DrainTick(s.tick, P.cfg.budget);
  }

  /** Each result is the first one decided for its bundle. */
  ghost predicate FirstDecided(intent: History, results: seq<Publication>) {
    forall k :: 0 <= k < |results| ==> [results[k].kind] <= Of(intent, results[k].uuid)
  }

  lemma DecidedStays(s: State, s': State, results: seq<Publication>)
    requires Extends(s, s') && FirstDecided(s.intent, results)
    ensures FirstDecided(s'.intent, results)
  {
    forall k | 0 <= k < |results| ensures [results[k].kind] <= Of(s'.intent, results[k].uuid) {
      assert Of(s.intent, results[k].uuid) <= Of(s'.intent, results[k].uuid);
    }
  }

  lemma DrainAdds(P: Params, s: State)
    requires s.tick.Draining? && s.tick.rest != [] && Of(s.intent, s.tick.rest[0].bundle.uuid) == []
    requires s.tick.usedCu == Select(s.tick.done, P.cfg.budget).usedCu
    requires FirstDecided(s.intent, Select(s.tick.done, P.cfg.budget).results)
    ensures FirstDecided(DrainStep(P, s).intent, Select(DrainStep(P, s).tick.done, P.cfg.budget).results)
  {
    var b := s.tick.rest[0];
    var before := Select(s.tick.done, P.cfg.budget).results;
    DrainExtends(P, s);
    DecidedStays(s, DrainStep(P, s), before);
    SelectSnoc(s.tick.done, b, P.cfg.budget);
    var after := Select(s.tick.done + [b], P.cfg.budget).results;
    assert after == before + [Publication(b.bundle.uuid, DrainKind(P, s))];
  }

  /** The running auction has decided what `Select` decides on the drained part. */
  ghost predicate Auctioning(P: Params, s: State, ranked: seq<PendingBundle>) {
    DrainsBy(P, s.tick, ranked) && FirstDecided(s.intent, Select(s.tick.done, P.cfg.budget).results)
  }

  lemma AuctionGoesOn(P: Params, s: State, step: Step, ranked: seq<PendingBundle>)
    requires Inv(s) && Enabled(s, step) && step != FinishAuction && Auctioning(P, s, ranked)
    ensures Auctioning(P, Next(P, s, step), ranked)
  {
    if step == Drain {
      DrainHead(s);
      DrainAdds(P, s);
      DrainRefines(P, s, ranked);
    } else {
      StepExtends(P, s, step);
      TickWaits(P, s, step);
      DecidedStays(s, Next(P, s, step), Select(s.tick.done, P.cfg.budget).results);
    }
  }

  /** While the auction drains, no other step of the tick task is enabled. */
  lemma TickWaits(P: Params, s: State, step: Step)
    requires Enabled(s, step) && s.tick.Draining? && step != FinishAuction && step != Drain
    ensures Next(P, s, step).tick == s.tick
  {
    TickFrame(P, s, step);
  }

  lemma AuctionRunStep(P: Params, states: seq<State>, steps: seq<Step>, j: nat, ranked: seq<PendingBundle>)
    requires IsRun(P, states, steps) && j < |steps| && steps[j] != FinishAuction && Auctioning(P, states[j], ranked)
    ensures Auctioning(P, states[j + 1], ranked)
  {
    RunInv(P, states, steps, j);
    AuctionGoesOn(P, states[j], steps[j], ranked);
  }

  lemma {:induction false} AuctionRuns(P: Params, states: seq<State>, steps: seq<Step>, i: nat, j: nat)
    requires IsRun(P, states, steps) && i < j < |states| && steps[i] == StartAuction
    requires forall k :: i < k < j ==> steps[k] != FinishAuction
    ensures Auctioning(P, states[j], Ranked(states[i].buffer, P.cfg, states[i].now))
    decreases j
  {
    if j == i + 1 {
      AuctionStarts(P, states[i]);
    } else {
      AuctionRuns(P, states, steps, i, j - 1);
      AuctionRunStep(P, states, steps, j - 1, Ranked(states[i].buffer, P.cfg, states[i].now));
    }
  }

  /** However other tasks interleave with it, an auction that starts at step `i` and is
      still running or just finishing at state `j` has decided, for winners and losers,
      what `RunAuction` decides for the buffer it started with. */
  lemma AuctionRefinement(P: Params, states: seq<State>, steps: seq<Step>, i: nat, j: nat)
    requires IsRun(P, states, steps) && i < j < |states| && steps[i] == StartAuction
    requires forall k :: i < k < j ==> steps[k] != FinishAuction
    ensures Auctioning(P, states[j], Ranked(states[i].buffer, P.cfg, states[i].now))
    ensures states[j].tick.rest == [] ==>
      var o := RunAuction(states[i].buffer, P.cfg, states[i].now);
      states[j].tick.winners == BundlesOf(o.winners) && FirstDecided(states[j].intent, o.results)
  {
    AuctionRuns(P, states, steps, i, j);
    AuctionEnds(P, states[j], Ranked(states[i].buffer, P.cfg, states[i].now));
  }

  lemma AuctionEnds(P: Params, s: State, ranked: seq<PendingBundle>)
    requires Auctioning(P, s, ranked)
    ensures s.tick.rest == [] ==>
      var o := Select(ranked, P.cfg.budget);
      s.tick.winners == BundlesOf(o.winners) && FirstDecided(s.intent, o.results)
  {
    if s.tick.rest == [] {
      assert s.tick.done + [] == s.tick.done;
    }
  }

  lemma AuctionStarts(P: Params, s: State)
    ensures var s' := StartAuctionStep(P, s);
      Auctioning(P, s', Ranked(s.buffer, P.cfg, s.now))
  {
    assert [] + Ranked(s.buffer, P.cfg, s.now) == Ranked(s.buffer, P.cfg, s.now);
    assert BundlesOf([]) == [];
  }

  // ----- conservation -----

  /** Everything received has been won, has been dropped, is buffered, is in the running
      auction, or is between being counted and being pushed. */
  lemma BundleConservation(P: Params, states: seq<State>, steps: seq<Step>, i: nat)
    requires IsRun(P, states, steps) && i < |states|
    ensures var s := states[i];
      s.received == s.won + s.dropped + |s.buffer| + |s.counted| + (if s.tick.Draining? then s.tick.entered else 0)
    ensures states[i].dropped >= 0
  {
    RunInv(P, states, steps, i);
  }
}
