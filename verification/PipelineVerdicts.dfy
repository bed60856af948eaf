/** Why a tracked bundle was reported finalized or dropped, in every run of the pipeline. */
module PipelineVerdicts {
  import opened Common
  import opened Bundles
  import opened AuctionSpec
  import opened TrackerSpec
  import opened Pipeline
  import opened PipelineInvariant
  import opened PipelineProof
  import opened PipelineTheorems
  import opened PipelineFrames

  // ----- tracked entries always have signatures -----

  ghost predicate Signed(tracked: seq<Tracked>) {
    forall t :: t in tracked ==> t.signatures != []
  }

  lemma RemainingSigned(tracked: seq<Tracked>, j: Judgement)
    requires Signed(tracked)
    ensures Signed(Remaining(tracked, j))
  {
    forall r | r in Remaining(tracked, j) ensures r.signatures != [] {
      RemainingMember(tracked, j, r);
    }
  }

  lemma AnswerSigned(P: Params, s: State, reply: Option<seq<Option<Status>>>)
    requires s.poll.Asking? && Signed(s.tracked)
    ensures Signed(AnswerStep(P, s, reply).tracked)
  {
    if reply.Some? {
      RemainingSigned(s.tracked, JudgementOf(P, s, reply.value));
    }
  }

  lemma HandSigned(P: Params, s: State)
    requires s.tick.Handing? && s.tick.left != [] && Signed(s.tracked)
    ensures Signed(HandStep(P, s).tracked)
  {
  }

  lemma StepSigned(P: Params, s: State, step: Step)
    requires Enabled(s, step) && Signed(s.tracked)
    ensures Signed(Next(P, s, step).tracked)
  {
    if step.Answer? {
      AnswerSigned(P, s, step.reply);
    } else if step.Hand? {
      HandSigned(P, s);
    } else if !step.Ask? {
      TrackerFrame(P, s, step);
    }
  }

  lemma {:induction false} RunSigned(P: Params, states: seq<State>, steps: seq<Step>, i: nat)
    requires IsRun(P, states, steps) && i < |states|
    ensures Signed(states[i].tracked)
  {
    if i > 0 {
      RunSigned(P, states, steps, i - 1);
      StepSigned(P, states[i - 1], steps[i - 1]);
    }
  }

  // ----- where a verdict comes from -----

  function EvidenceOf(P: Params, s: State, reply: seq<Option<Status>>): Evidence
    requires s.poll.Asking?
  {
    Evidence(Known(s.poll.batch, reply), s.now, P.deadline)
  }

  function JudgementOf(P: Params, s: State, reply: seq<Option<Status>>): Judgement
    requires s.poll.Asking?
  {
    JudgeBy(EvidenceOf(P, s, reply))
  }

  lemma {:induction false} AnnouncedOrOld(intent: History, pubs: seq<Publication>, u: string, k: ResultKind)
    requires k in Of(Announce(intent, pubs), u)
    ensures k in Of(intent, u) || Publication(u, k) in pubs
  {
    if pubs != [] {
      var init, last := pubs[..|pubs| - 1], pubs[|pubs| - 1];
      if k in Of(Announce(intent, init), u) {
        AnnouncedOrOld(intent, init, u, k);
      } else {
        assert last == Publication(u, k);
      }
    }
  }

  /** Results that the tracker decides on. */
  predicate OfTracker(k: ResultKind) {
    k.Finalized? || k.Processed? || k.Dropped?
  }

  /** The verdict on the entry is the result `k`. */
  predicate Earned(t: Tracked, k: ResultKind, e: Evidence) {
    Announcement(t, JudgeBy(e)) == Some(Publication(t.uuid, k))
  }

  lemma AnswerVerdict(P: Params, s: State, reply: seq<Option<Status>>, u: string, k: ResultKind) returns (t: Tracked)
    requires s.poll.Asking? && OfTracker(k)
    requires k !in Of(s.intent, u) && k in Of(AnswerStep(P, s, Some(reply)).intent, u)
    ensures t in s.tracked && t.uuid == u && Earned(t, k, EvidenceOf(P, s, reply))
  {
    var j := JudgementOf(P, s, reply);
    AnnouncedOrOld(s.intent, Publications(s.tracked, j), u, k);
    SweepAnnounces(s.tracked, j, Publication(u, k));
    t :| t in s.tracked && Announcement(t, j) == Some(Publication(u, k));
  }

  lemma BeginSendAdds(s: State, u: string, owner: string, packets: Option<seq<Packet>>, v: string, k: ResultKind)
    ensures k in Of(BeginSendStep(s, u, owner, packets).intent, v) ==> k in Of(s.intent, v)
  {
  }

  lemma SetSimAdds(s: State, outcome: SimOutcome, u: string, k: ResultKind)
    requires s.tick.Simulating? && s.tick.queue != []
    ensures k in Of(SetSimStep(s, outcome).intent, u) ==> k in Of(s.intent, u) || k == SimFailure
  {
  }

  lemma DrainAddsResult(P: Params, s: State, u: string, k: ResultKind)
    requires s.tick.Draining? && s.tick.rest != []
    ensures k in Of(DrainStep(P, s).intent, u) ==> k in Of(s.intent, u) || k.Accepted? || k.LostAuction?
  {
  }

  /** Only an answered poll decides that a bundle is finalized, processed or dropped. */
  lemma OnlyAnswersDecide(P: Params, s: State, step: Step, u: string, k: ResultKind)
    requires Enabled(s, step) && OfTracker(k) && k in Of(Next(P, s, step).intent, u)
    ensures k in Of(s.intent, u) || (step.Answer? && step.reply.Some?)
  {
    if !Decides(step) {
      IntentFrame(P, s, step);
    } else if step.BeginSend? {
      BeginSendAdds(s, step.uuid, step.owner, step.packets, u, k);
    } else if step.SetSim? {
      SetSimAdds(s, step.outcome, u, k);
    } else if step.Drain? {
      DrainAddsResult(P, s, u, k);
    }
  }

  lemma {:induction false} VerdictSource(
    P: Params, states: seq<State>, steps: seq<Step>, i: nat, u: string, k: ResultKind)
    returns (n: nat, t: Tracked)
    requires IsRun(P, states, steps) && i < |states|
    requires OfTracker(k) && k in Of(states[i].intent, u)
    ensures n < i && n < |steps| && steps[n].Answer? && steps[n].reply.Some? && states[n].poll.Asking?
    ensures t in states[n].tracked && t.uuid == u && t.signatures != []
    ensures Earned(t, k, EvidenceOf(P, states[n], steps[n].reply.value))
  {
    assert i > 0;
    var m := i - 1;
    if k in Of(states[m].intent, u) {
      n, t := VerdictSource(P, states, steps, m, u, k);
    } else {
      OnlyAnswersDecide(P, states[m], steps[m], u, k);
      t := AnswerVerdict(P, states[m], steps[m].reply.value, u, k);
      RunSigned(P, states, steps, m);
      n := m;
    }
  }

  // ----- what a poll asked about -----

  /** A poll that is waiting for its answer asked about the batch of what was tracked when
      it asked; since then entries were only appended. */
  lemma {:induction false} BatchOrigin(P: Params, states: seq<State>, steps: seq<Step>, n: nat) returns (m: nat)
    requires IsRun(P, states, steps) && n < |states| && states[n].poll.Asking?
    ensures m < n && m < |steps| && steps[m].Ask?
    ensures states[n].poll.batch == Batch(states[m].tracked) && states[m].tracked <= states[n].tracked
  {
    assert n > 0;
    var j := n - 1;
    if steps[j].Ask? {
      m := j;
    } else {
      AskingBefore(P, states[j], steps[j]);
      m := BatchOrigin(P, states, steps, j);
    }
  }

  lemma AnswerSleeps(P: Params, s: State, reply: Option<seq<Option<Status>>>)
    requires s.poll.Asking?
    ensures AnswerStep(P, s, reply).poll.Sleeping?
  {
  }

  lemma HandGrows(P: Params, s: State)
    requires s.tick.Handing? && s.tick.left != []
    ensures s.tracked <= HandStep(P, s).tracked && HandStep(P, s).poll == s.poll
  {
  }

  /** An answer ends the poll; other steps leave its batch alone and at most append. */
  lemma AskingBefore(P: Params, s: State, step: Step)
    requires Enabled(s, step) && !step.Ask?
    ensures step.Answer? ==> Next(P, s, step).poll.Sleeping?
    ensures !step.Answer? ==> s.poll == Next(P, s, step).poll && s.tracked <= Next(P, s, step).tracked
  {
    if step.Answer? {
      AnswerSleeps(P, s, step.reply);
    } else if step.Hand? {
      HandGrows(P, s);
    } else {
      TrackerFrame(P, s, step);
    }
  }

  /** The request at step `m` is the one that the answer at step `n` belongs to. */
  ghost predicate Asked(states: seq<State>, steps: seq<Step>, m: nat, n: nat) {
    && m < n < |steps| < |states| && steps[m].Ask? && states[n].poll.Asking?
    && states[n].poll.batch == Batch(states[m].tracked) && states[m].tracked <= states[n].tracked
  }

  /** The statuses of an answer, put to the request it belongs to, bear out a result:
      finalized, when each signature is reported finalized at its own position; processed,
      when each is reported at least confirmed, some not finalized, and the slot is the
      latest one reported; dropped, when the deadline has passed, some signature
      is not finalized, and some is not confirmed or the bundle was processed before. */
  ghost predicate BornOut(
    t: Tracked, k: ResultKind, batch: seq<Signature>, reply: seq<Option<Status>>, now: nat, deadline: nat)
  {
    && (k.Finalized? ==> forall x :: x in t.signatures ==> exists p :: ReportedFinalized(batch, reply, x, p))
    && (!k.Finalized? ==> exists x :: x in t.signatures && forall p :: !ReportedFinalized(batch, reply, x, p))
    && (k.Processed? ==>
          && (forall x :: x in t.signatures ==> exists p :: ReportedConfirmed(batch, reply, x, p))
          && LatestReported(t, batch, reply, k.slot))
    && (k.Dropped? ==>
          && SatSub(now, t.since) > deadline
          && (t.processedEmitted
              || exists x :: x in t.signatures && forall p :: !ReportedConfirmed(batch, reply, x, p)))
  }

  lemma EarnedIsBornOut(
    asked: seq<Tracked>, reply: seq<Option<Status>>, t: Tracked, k: ResultKind, now: nat, deadline: nat)
    requires OfTracker(k) && Earned(t, k, Evidence(Known(Batch(asked), reply), now, deadline))
    ensures BornOut(t, k, Batch(asked), reply, now, deadline)
  {
    FinalizedExactly(asked, reply, t, now, deadline);
    ProcessedExactly(asked, reply, t, now, deadline);
  }

  /** In every run: a bundle reported finalized, processed or dropped was a tracked entry
      with at least one signature, judged by an earlier answer to an earlier request, and
      that answer bears the result out. */
  lemma VerdictsAreEarned(P: Params, states: seq<State>, steps: seq<Step>, i: nat, u: string, k: ResultKind)
    returns (m: nat, n: nat, t: Tracked)
    requires IsRun(P, states, steps) && i < |states| && OfTracker(k) && k in Of(states[i].intent, u)
    ensures Asked(states, steps, m, n) && n < i && steps[n].Answer? && steps[n].reply.Some?
    ensures t in states[n].tracked && t.uuid == u && t.signatures != []
    ensures BornOut(t, k, Batch(states[m].tracked), steps[n].reply.value, states[n].now, P.deadline)
  {
    n, t := VerdictSource(P, states, steps, i, u, k);
    m := BatchOrigin(P, states, steps, n);
    EarnedIsBornOut(states[m].tracked, steps[n].reply.value, t, k, states[n].now, P.deadline);
  }

  // ----- what is finalized on chain is announced -----

  lemma {:induction false} AnnouncedIsDecided(
    intent: History, pubs: seq<Publication>, p: Publication)
    requires p in pubs
    ensures p.kind in Of(Announce(intent, pubs), p.uuid)
  {
    var init, last := pubs[..|pubs| - 1], pubs[|pubs| - 1];
    if p != last {
      assert p in init;
      AnnouncedIsDecided(intent, init, p);
    }
  }

  /** The uuid of a tracked entry is tracked once and has no final result yet. */
  lemma TrackedIsOpen(s: State, t: Tracked)
    requires Places(s) && Intents(s) && t in s.tracked
    ensures Finalized !in Of(s.intent, t.uuid)
    ensures forall t' :: t' in s.tracked && t'.uuid == t.uuid ==> t' == t
  {
    TrackedMember(s.tracked, t.uuid);
    assert IsAt(s.stage, t.uuid, Tracking);
    forall t' | t' in s.tracked && t'.uuid == t.uuid ensures t' == t {
      SameEntry(s.tracked, t, t');
    }
  }

  lemma RunTrackedIsOpen(P: Params, states: seq<State>, steps: seq<Step>, n: nat, t: Tracked)
    requires IsRun(P, states, steps) && n < |states| && t in states[n].tracked
    ensures Finalized !in Of(states[n].intent, t.uuid)
    ensures forall t' :: t' in states[n].tracked && t'.uuid == t.uuid ==> t' == t
  {
    RunInv(P, states, steps, n);
    TrackedIsOpen(states[n], t);
  }

  lemma AnswerFinalizes(P: Params, s: State, reply: seq<Option<Status>>, t: Tracked)
    requires s.poll.Asking? && t in s.tracked && Finalized !in Of(s.intent, t.uuid)
    requires forall t' :: t' in s.tracked && t'.uuid == t.uuid ==> t' == t
    ensures Finalized in Of(AnswerStep(P, s, Some(reply)).intent, t.uuid)
       <==> Judge(t, EvidenceOf(P, s, reply)).Finalize?
  {
    var j := JudgementOf(P, s, reply);
    var pubs := Publications(s.tracked, j);
    var p := Publication(t.uuid, Finalized);
    if Judge(t, EvidenceOf(P, s, reply)).Finalize? {
      assert Announcement(t, j) == Some(p);
      SweepAnnounces(s.tracked, j, p);
      AnnouncedIsDecided(s.intent, pubs, p);
    }
    if Finalized in Of(AnswerStep(P, s, Some(reply)).intent, t.uuid) {
      var t' := AnswerVerdict(P, s, reply, t.uuid, Finalized);
      assert AllFinalized(t, EvidenceOf(P, s, reply));
    }
  }

  /** In every run: when a full, truthful answer arrives, a tracked bundle that is finalized
      on chain is decided finalized if and only if all its signatures were in the request;
      for a bundle tracked when the request was made, if and only if each signature had
      fewer than 256 smaller ones pending then. */
  lemma FinalizedIsAnnounced(
    P: Params, states: seq<State>, steps: seq<Step>, n: nat, t: Tracked, chain: Signature -> Option<Status>)
    returns (m: nat)
    requires IsRun(P, states, steps) && n < |steps| && steps[n].Answer? && steps[n].reply.Some?
    requires t in states[n].tracked && FinalOnChain(t, chain)
    requires states[n].poll.Asking? ==> FullAnswer(states[n].poll.batch, steps[n].reply.value, chain)
    ensures Asked(states, steps, m, n)
    ensures Finalized in Of(states[n + 1].intent, t.uuid)
       <==> forall x :: x in t.signatures ==> x in Batch(states[m].tracked)
    ensures t in states[m].tracked ==>
      (Finalized in Of(states[n + 1].intent, t.uuid)
       <==> forall x :: x in t.signatures ==> RankIn(states[m].tracked, x) < MAX_SIGS_PER_CALL)
  {
    var s, reply := states[n], steps[n].reply.value;
    m := BatchOrigin(P, states, steps, n);
    RunTrackedIsOpen(P, states, steps, n, t);
    AnswerFinalizes(P, s, reply, t);
    FinalizedIffAsked(states[m].tracked, reply, t, s.now, P.deadline, chain);
    if t in states[m].tracked {
      FinalizedIffRanked(states[m].tracked, reply, t, s.now, P.deadline, chain);
    }
  }
}
