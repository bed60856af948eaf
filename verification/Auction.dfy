/** The auction as the shared object that searchers submit to and the tick task runs. */
module Auction {
  import opened Common
  import opened Bundles
  import opened HubSpec
  import opened Results
  import opened StableSort
  import opened AuctionSpec
  import opened AuctionTheorems
  import Scoring

  class AuctionHouse {
    var buffer: seq<PendingBundle>
    const scorer: Scoring.Scorer
    const cfg: Config
    /** Sink for per-bundle results; absent when none was attached. */
    const hub: BundleResults?

    // Process-wide counters.
    var bundlesReceived: nat
    var bundlesWon: nat
    var bundlesDropped: nat
    var tipsLamports: nat

    /** Every received bundle was won, was dropped, or is still buffered. */
    ghost predicate Valid()
      reads this
    {
      bundlesReceived == bundlesWon + bundlesDropped + |buffer|
    }

    constructor (scorer: Scoring.Scorer, cfg: Config, hub: BundleResults?)
      ensures Valid() && buffer == [] && this.scorer == scorer && this.cfg == cfg && this.hub == hub
    {
      this.scorer, this.cfg, this.hub := scorer, cfg, hub;
      buffer := [];
      bundlesReceived, bundlesWon, bundlesDropped, tipsLamports := 0, 0, 0, 0;
    }

    method Submit(bundle: BundleUuid, now: nat)
      requires Valid()
      modifies this
      ensures Valid()
      ensures var (tip, estCu) := Scoring.Score(scorer, bundle);
        buffer == old(buffer) + [PendingBundle(bundle, tip, estCu, now, None)]
      ensures bundlesReceived == old(bundlesReceived) + 1
      ensures bundlesWon == old(bundlesWon) && bundlesDropped == old(bundlesDropped)
      ensures tipsLamports == old(tipsLamports)
    {
      var tip, estCu := Scoring.ScoreBundle(scorer, bundle);
      bundlesReceived := bundlesReceived + 1;
      buffer := buffer + [PendingBundle(bundle, tip, estCu, now, None)];
    }

    /** The bundles that still have to be simulated, in buffer order. */
    method PendingForSimulation() returns (todo: seq<BundleUuid>)
      ensures todo == BundlesOf(Filter(buffer, UnsimulatedTest()))
      ensures forall x :: x in todo <==> exists b :: b in buffer && b.sim.None? && b.bundle == x
    {
      todo := BundlesOf(Filter(buffer, UnsimulatedTest()));
      forall x ensures x in todo <==> exists b :: b in buffer && b.sim.None? && b.bundle == x {
        UnsimulatedExactly(buffer, x);
      }
    }

    /** Record an outcome on the first buffered bundle with that uuid; report a failure
        whether or not the bundle is still there. */
    method SetSimulation(uuid: string, outcome: SimOutcome)
      requires Valid()
      modifies this`buffer, hub
      ensures Valid() && buffer == WithSimulation(old(buffer), uuid, outcome)
      ensures hub != null ==>
        hub.Value() == if outcome.ok then old(hub.Value()) else Publish(old(hub.Value()), Publication(uuid, SimFailure))
    {
      var i := 0;
      while i < |buffer| && buffer[i].bundle.uuid != uuid
        invariant 0 <= i <= |buffer| && buffer == old(buffer)
        invariant forall k :: 0 <= k < i ==> buffer[k].bundle.uuid != uuid
      {
        i := i + 1;
      }
      WithSimulationAt(buffer, uuid, outcome, i);
      if i < |buffer| {
        buffer := buffer[i := buffer[i].(sim := Some(outcome))];
      }
      if !outcome.ok {
        Announce(Publication(uuid, SimFailure));
      }
    }

    /** Publish, when a sink is attached. */
    method Announce(p: Publication)
      modifies hub
      ensures hub != null ==> hub.Value() == Publish(old(hub.Value()), p)
    {
      if hub != null {
        hub.Publish(p);
      }
    }

    /** One auction: returns the winners and empties the buffer. */
    method Run(now: nat) returns (winners: seq<BundleUuid>)
      requires Valid()
      modifies this, hub
      ensures Valid() && buffer == []
      ensures var o := RunAuction(old(buffer), cfg, now);
        && winners == BundlesOf(o.winners)
        && (hub != null ==> hub.Value() == PublishAll(old(hub.Value()), o.results))
        && bundlesReceived == old(bundlesReceived)
        && bundlesWon == old(bundlesWon) + |o.winners|
        && bundlesDropped == old(bundlesDropped) + |old(buffer)| - |o.winners|
        && tipsLamports == old(tipsLamports) + o.totalTip
    {
      if buffer == [] {
        return [];
      }
      var entered := |buffer|;
      var totalTip;
      WinnersAreBuffered(buffer, cfg, now);
      winners, totalTip := Drain(Sort(Filter(buffer, SurvivalTest(now, cfg.ttl)), KeyOf(cfg.density)));
      buffer := [];
      bundlesWon := bundlesWon + |winners|;
      bundlesDropped := bundlesDropped + (entered - |winners|);
      tipsLamports := tipsLamports + totalTip;
    }

    /** The loop that drains the ranked bundles, publishing a result for each. */
    method Drain(ranked: seq<PendingBundle>) returns (winners: seq<BundleUuid>, totalTip: u64)
      modifies hub
      ensures winners == BundlesOf(Select(ranked, cfg.budget).winners)
      ensures totalTip == Select(ranked, cfg.budget).totalTip
      ensures hub != null ==> hub.Value() == PublishAll(old(hub.Value()), Select(ranked, cfg.budget).results)
    {
      winners, totalTip := [], 0;
      var usedCu: u64 := 0;
      for i := 0 to |ranked|
        invariant Reached(Select(ranked[..i], cfg.budget), winners, usedCu, totalTip)
        invariant hub != null ==>
          hub.Value() == PublishAll(old(hub.Value()), Select(ranked[..i], cfg.budget).results)
      {
        var pb := ranked[i];
        ghost var so := Select(ranked[..i], cfg.budget);
        SelectNext(ranked, i, cfg.budget);
        var uuid := pb.bundle.uuid;
        var cu := pb.Cu();
        if SatAdd(usedCu, cu) <= cfg.budget {
          usedCu := WrapAdd(usedCu, cu);
          totalTip := SatAdd(totalTip, pb.tip);
          PublishAllSnoc(so.results, Publication(uuid, Accepted(0)));
          Announce(Publication(uuid, Accepted(0)));
          winners := winners + [pb.bundle];
        } else {
          PublishAllSnoc(so.results, Publication(uuid, LostAuction(pb.tip)));
          Announce(Publication(uuid, LostAuction(pb.tip)));
        }
      }
      assert ranked[..|ranked|] == ranked;
    }
  }

  // ----- what unsimulated bundles are charged -----

  function PacketCount(s: seq<PendingBundle>): nat {
    if s == [] then 0 else PacketCount(s[..|s| - 1]) + |s[|s| - 1].bundle.Packets()|
  }

  /** As `Submit` leaves it: not simulated, with the estimate of its score. */
  ghost predicate AsSubmitted(sc: Scoring.Scorer, b: PendingBundle) {
    b.sim.None? && b.estCu == Scoring.Score(sc, b.bundle).1
  }

  lemma {:induction false} EstimatesAdd(sc: Scoring.Scorer, s: seq<PendingBundle>)
    requires Charged(s) < U64_MAX && forall b :: b in s ==> AsSubmitted(sc, b)
    ensures Charged(s) == 200_000 * PacketCount(s)
  {
    if s != [] {
      assert AsSubmitted(sc, s[|s| - 1]);
      EstimatesAdd(sc, s[..|s| - 1]);
    }
  }

  /** Without simulations: 200,000 times the winners' packets is within every budget below
      the maximal one, and any loser's packets on top of them are not. */
  lemma PacketBudget(sc: Scoring.Scorer, buffer: seq<PendingBundle>, cfg: Config, now: nat)
    requires cfg.budget < 0xFFFF_FFFF_FFFF_FFFF && forall b :: b in buffer ==> AsSubmitted(sc, b)
    ensures var o := RunAuction(buffer, cfg, now);
      && 200_000 * PacketCount(o.winners) <= cfg.budget
      && forall b :: b in o.losers ==> 200_000 * (PacketCount(o.winners) + |b.bundle.Packets()|) > cfg.budget
  {
    var o := RunAuction(buffer, cfg, now);
    BudgetByFigures(buffer, cfg, now);
    forall b | b in o.winners || b in o.losers ensures AsSubmitted(sc, b) {
      RankedExactly(buffer, cfg, now, b);
    }
    EstimatesAdd(sc, o.winners);
    forall b | b in o.losers ensures 200_000 * (PacketCount(o.winners) + |b.bundle.Packets()|) > cfg.budget {
      assert AsSubmitted(sc, b);
    }
  }

  lemma UnsimulatedExactly(buffer: seq<PendingBundle>, x: BundleUuid)
    ensures x in BundlesOf(Filter(buffer, UnsimulatedTest()))
       <==> exists b :: b in buffer && b.sim.None? && b.bundle == x
  {
    var f := Filter(buffer, UnsimulatedTest());
    if x in BundlesOf(f) {
      var i :| 0 <= i < |f| && BundlesOf(f)[i] == x;
      FilterMember(buffer, UnsimulatedTest(), f[i]);
    }
    if b :| b in buffer && b.sim.None? && b.bundle == x {
      FilterMember(buffer, UnsimulatedTest(), b);
      var i :| 0 <= i < |f| && f[i] == b;
      assert BundlesOf(f)[i] == x;
    }
  }

  /** The loop's variables agree with a selection. */
  ghost predicate Reached(o: Outcome, winners: seq<BundleUuid>, usedCu: u64, totalTip: u64) {
    winners == BundlesOf(o.winners) && usedCu == o.usedCu && totalTip == o.totalTip
  }

  lemma SelectNext(ranked: seq<PendingBundle>, i: nat, budget: u64)
    requires i < |ranked|
    ensures Select(ranked[..i + 1], budget) == Take(Select(ranked[..i], budget), ranked[i], budget)
  {
    assert ranked[..i + 1] == ranked[..i] + [ranked[i]];
    SelectSnoc(ranked[..i], ranked[i], budget);
  }

  lemma PublishAllSnoc(ps: seq<Publication>, p: Publication)
    ensures forall h :: PublishAll(h, ps + [p]) == Publish(PublishAll(h, ps), p)
  {
    assert (ps + [p])[..|ps|] == ps;
  }

  lemma WinnersAreBuffered(buffer: seq<PendingBundle>, cfg: Config, now: nat)
    ensures |RunAuction(buffer, cfg, now).winners| <= |buffer|
  {
    Conservation(buffer, cfg, now);
    assert |multiset(RunAuction(buffer, cfg, now).winners)| <= |multiset(buffer)|;
  }
}
