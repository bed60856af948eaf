/** What the steps of each task leave alone. */
module PipelineFrames {
  import opened Common
  import opened Bundles
  import opened HubSpec
  import opened AuctionSpec
  import opened TrackerSpec
  import opened Pipeline

  predicate OfCaller(step: Step) {
    step.Wait? || step.BeginSend? || step.RegisterCall? || step.CountCall? || step.PushCall?
  }

  predicate OfHub(step: Step) {
    || step.ResolveNext? || step.DeliverNext? || step.PruneOwners?
    || step.Subscribe? || step.ReadOne? || step.CloseStream?
  }

  predicate OfPoll(step: Step) {
    step.Ask? || step.Answer?
  }

  predicate OfTick(step: Step) {
    !OfCaller(step) && !OfHub(step) && !OfPoll(step)
  }

  /** The auction tick and what it has sent. */
  predicate SameTick(s: State, s': State) {
    s'.tick == s.tick && s'.forwarded == s.forwarded
  }

  predicate SameTracker(s: State, s': State) {
    s'.tracked == s.tracked && s'.poll == s.poll
  }

  predicate SameDecisions(s: State, s': State) {
    s'.buffer == s.buffer && s'.intent == s.intent && s'.stage == s.stage
  }

  lemma ResolveFrame(s: State, who: Who)
    requires OutboxOf(s, who).todo != []
    ensures var s' := ResolveStep(s, who); SameTick(s, s') && SameTracker(s, s') && SameDecisions(s, s')
  {
  }

  lemma DeliverFrame(s: State, who: Who)
    requires OutboxOf(s, who).flight.Some?
    ensures var s' := DeliverStep(s, who); SameTick(s, s') && SameTracker(s, s') && SameDecisions(s, s')
  {
  }

  lemma ReadFrame(s: State, o: string, i: nat)
    requires o in s.hub.subscribers && i < |s.hub.subscribers[o]|
    ensures var s' := ReadStep(s, o, i); SameTick(s, s') && SameTracker(s, s') && SameDecisions(s, s')
  {
  }

  lemma CloseFrame(s: State, o: string, i: nat)
    requires o in s.hub.subscribers && i < |s.hub.subscribers[o]|
    ensures var s' := CloseStep(s, o, i); SameTick(s, s') && SameTracker(s, s') && SameDecisions(s, s')
  {
  }

  lemma HubFrame(P: Params, s: State, step: Step)
    requires Enabled(s, step) && OfHub(step)
    ensures var s' := Next(P, s, step); SameTick(s, s') && SameTracker(s, s') && SameDecisions(s, s')
  {
    match step
    case ResolveNext(who) => ResolveFrame(s, who);
    case DeliverNext(who) => DeliverFrame(s, who);
    case PruneOwners =>
    case Subscribe(_) =>
    case ReadOne(o, i) => ReadFrame(s, o, i);
    case CloseStream(o, i) => CloseFrame(s, o, i);
  }

  lemma CallerFrame(P: Params, s: State, step: Step)
    requires Enabled(s, step) && OfCaller(step)
    ensures var s' := Next(P, s, step);
      SameTick(s, s') && SameTracker(s, s') && (step.PushCall? || s'.buffer == s.buffer)
  {
    match step
    case Wait(_) =>
    case BeginSend(u, owner, packets) => assert SameTick(s, BeginSendStep(s, u, owner, packets));
    case RegisterCall(u) => assert SameTick(s, RegisterStep(s, u));
    case CountCall(u) => assert SameTick(s, CountStep(s, u));
    case PushCall(u) => assert SameTick(s, PushStep(P, s, u));
  }

  lemma AnswerFrame(P: Params, s: State, reply: Option<seq<Option<Status>>>)
    requires s.poll.Asking?
    ensures var s' := AnswerStep(P, s, reply); SameTick(s, s') && s'.buffer == s.buffer
  {
  }

  lemma PollFrame(P: Params, s: State, step: Step)
    requires Enabled(s, step) && OfPoll(step)
    ensures var s' := Next(P, s, step); SameTick(s, s') && s'.buffer == s.buffer
  {
    match step
    case Ask =>
    case Answer(reply) => AnswerFrame(P, s, reply);
  }

  /** Only the tick task moves the tick. */
  lemma TickFrame(P: Params, s: State, step: Step)
    requires Enabled(s, step) && !OfTick(step)
    ensures SameTick(s, Next(P, s, step))
  {
    if OfHub(step) {
      HubFrame(P, s, step);
    } else if OfCaller(step) {
      CallerFrame(P, s, step);
    } else {
      PollFrame(P, s, step);
    }
  }

  lemma TickLeavesTracker(P: Params, s: State, step: Step)
    requires Enabled(s, step) && OfTick(step) && !step.Hand?
    ensures SameTracker(s, Next(P, s, step))
  {
    match step
    case StartTick =>
    case SetSim(outcome) => assert SameTracker(s, SetSimStep(s, outcome));
    case StartAuction => assert SameTracker(s, StartAuctionStep(P, s));
    case Drain => assert SameTracker(s, DrainStep(P, s));
    case FinishAuction =>
    case SendOk =>
    case SendFailed =>
    case EndTick =>
  }

  /** Only handing a winner over and the two halves of a poll touch the tracker. */
  lemma TrackerFrame(P: Params, s: State, step: Step)
    requires Enabled(s, step) && !OfPoll(step) && !step.Hand?
    ensures SameTracker(s, Next(P, s, step))
  {
    if OfHub(step) {
      HubFrame(P, s, step);
    } else if OfCaller(step) {
      CallerFrame(P, s, step);
    } else {
      TickLeavesTracker(P, s, step);
    }
  }

  /** Steps that decide on a result. */
  predicate Decides(step: Step) {
    step.BeginSend? || step.SetSim? || step.Drain? || step.Answer?
  }

  lemma TickDecidesNothing(P: Params, s: State, step: Step)
    requires Enabled(s, step) && OfTick(step) && !Decides(step)
    ensures Next(P, s, step).intent == s.intent
  {
    match step
    case StartTick =>
    case StartAuction => assert StartAuctionStep(P, s).intent == s.intent;
    case FinishAuction =>
    case Hand => assert HandStep(P, s).intent == s.intent;
    case SendOk =>
    case SendFailed =>
    case EndTick =>
  }

  lemma CallerDecidesNothing(P: Params, s: State, step: Step)
    requires Enabled(s, step) && OfCaller(step) && !Decides(step)
    ensures Next(P, s, step).intent == s.intent
  {
  }

  lemma IntentFrame(P: Params, s: State, step: Step)
    requires Enabled(s, step) && !Decides(step)
    ensures Next(P, s, step).intent == s.intent
  {
    if OfHub(step) {
      HubFrame(P, s, step);
    } else if OfCaller(step) {
      CallerDecidesNothing(P, s, step);
    } else if OfTick(step) {
      TickDecidesNothing(P, s, step);
    }
  }
}
