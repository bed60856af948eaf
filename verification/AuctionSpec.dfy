/** What one auction computes: filtering, ranking and skip-greedy selection. */
module AuctionSpec {
  import opened Common
  import opened Bundles
  import opened StableSort

  datatype SimOutcome = SimOutcome(ok: bool, unitsConsumed: u64)

  /** A bundle waiting in the buffer, scored when it was submitted. */
  datatype PendingBundle = PendingBundle(
    bundle: BundleUuid, tip: u64, estCu: u64, received: nat, sim: Option<SimOutcome>)
  {
    function Cu(): u64 {
      if sim.Some? then sim.value.unitsConsumed else estCu
    }

    predicate FailedSimulation() {
      sim.Some? && !sim.value.ok
    }
  }

  /** The number the comparator ranks by, as a function of tip and charged CU.
      The engine computes a binary64 quotient: a finite number for all inputs, because
      the denominator is at least 1, so comparing two of them is comparing reals. */
  type Density = (u64, u64) -> real

  datatype Config = Config(density: Density, budget: u64, ttl: nat)

  /** The quotient without rounding. */
  function ExactDensity(tip: u64, cu: u64): real {
    tip as real / Max(cu, 1) as real
  }

  function KeyOf(d: Density): PendingBundle -> real {
    (b: PendingBundle) => d(b.tip, b.Cu())
  }

  // ----- the buffer -----

  function BundlesOf(s: seq<PendingBundle>): seq<BundleUuid> {
    seq(|s|, i requires 0 <= i < |s| => s[i].bundle)
  }

  function UnsimulatedTest(): PendingBundle -> bool { (b: PendingBundle) => b.sim.None? }

  function WithSimulation(buffer: seq<PendingBundle>, uuid: string, outcome: SimOutcome): seq<PendingBundle> {
    if buffer == [] then []
    else if buffer[0].bundle.uuid == uuid then [buffer[0].(sim := Some(outcome))] + buffer[1..]
    else [buffer[0]] + WithSimulation(buffer[1..], uuid, outcome)
  }

  lemma {:induction false} WithSimulationLength(buffer: seq<PendingBundle>, uuid: string, outcome: SimOutcome)
    ensures |WithSimulation(buffer, uuid, outcome)| == |buffer|
  {
    if buffer != [] && buffer[0].bundle.uuid != uuid {
      WithSimulationLength(buffer[1..], uuid, outcome);
    }
  }

  /** The first bundle with that uuid is the one that is changed. */
  lemma {:induction false} WithSimulationAt(buffer: seq<PendingBundle>, uuid: string, outcome: SimOutcome, i: nat)
    requires i <= |buffer| && forall k :: 0 <= k < i ==> buffer[k].bundle.uuid != uuid
    requires i < |buffer| ==> buffer[i].bundle.uuid == uuid
    ensures WithSimulation(buffer, uuid, outcome)
         == if i < |buffer| then buffer[i := buffer[i].(sim := Some(outcome))] else buffer
  {
    if i > 0 {
      WithSimulationAt(buffer[1..], uuid, outcome, i - 1);
    }
  }

  // ----- filtering -----

  predicate Expired(b: PendingBundle, now: nat, ttl: nat) {
    SatSub(now, b.received) >= ttl
  }

  predicate Survives(b: PendingBundle, now: nat, ttl: nat) {
    !Expired(b, now, ttl) && !b.FailedSimulation()
  }

  function SurvivalTest(now: nat, ttl: nat): PendingBundle -> bool { (b: PendingBundle) => Survives(b, now, ttl) }
  function ExpiryTest(now: nat, ttl: nat): PendingBundle -> bool { (b: PendingBundle) => Expired(b, now, ttl) }
  function FailureTest(now: nat, ttl: nat): PendingBundle -> bool {
    (b: PendingBundle) => !Expired(b, now, ttl) && b.FailedSimulation()
  }

  function Survivors(buffer: seq<PendingBundle>, cfg: Config, now: nat): seq<PendingBundle> {
    Filter(buffer, SurvivalTest(now, cfg.ttl))
  }

  function Ranked(buffer: seq<PendingBundle>, cfg: Config, now: nat): seq<PendingBundle> {
    Sort(Survivors(buffer, cfg, now), KeyOf(cfg.density))
  }

  // ----- selection -----

  /** The accumulators of the drain loop. */
  datatype Outcome = Outcome(
    winners: seq<PendingBundle>, losers: seq<PendingBundle>,
    usedCu: u64, totalTip: u64, results: seq<Publication>)

  predicate Fits(usedCu: u64, b: PendingBundle, budget: u64) {
    SatAdd(usedCu, b.Cu()) <= budget
  }

  /** One iteration of the drain loop. */
  function Take(o: Outcome, b: PendingBundle, budget: u64): Outcome {
    if Fits(o.usedCu, b, budget) then
      Outcome(o.winners + [b], o.losers, WrapAdd(o.usedCu, b.Cu()), SatAdd(o.totalTip, b.tip),
              o.results + [Publication(b.bundle.uuid, Accepted(0))])
    else
      o.(losers := o.losers + [b],
         results := o.results + [Publication(b.bundle.uuid, LostAuction(b.tip))])
  }

  function Select(ranked: seq<PendingBundle>, budget: u64): Outcome {
    if ranked == [] then Outcome([], [], 0, 0, [])
    else Take(Select(ranked[..|ranked| - 1], budget), ranked[|ranked| - 1], budget)
  }

  function RunAuction(buffer: seq<PendingBundle>, cfg: Config, now: nat): Outcome {
    Select(Ranked(buffer, cfg, now), cfg.budget)
  }

  // ----- exact totals -----

  function SumCu(s: seq<PendingBundle>): nat {
    if s == [] then 0 else SumCu(s[..|s| - 1]) + s[|s| - 1].Cu()
  }

  function SumTip(s: seq<PendingBundle>): nat {
    if s == [] then 0 else SumTip(s[..|s| - 1]) + s[|s| - 1].tip
  }

  function Uuids(s: seq<PendingBundle>): seq<string> {
    seq(|s|, i requires 0 <= i < |s| => s[i].bundle.uuid)
  }

  lemma SumSnoc(s: seq<PendingBundle>, b: PendingBundle)
    ensures SumCu(s + [b]) == SumCu(s) + b.Cu()
    ensures SumTip(s + [b]) == SumTip(s) + b.tip
  {
    assert (s + [b])[..|s|] == s;
  }

  lemma SelectSnoc(s: seq<PendingBundle>, b: PendingBundle, budget: u64)
    ensures Select(s + [b], budget) == Take(Select(s, budget), b, budget)
  {
    assert (s + [b])[..|s|] == s;
  }

  // ----- budget safety -----

  /** Every ranked bundle ends up on exactly one side. */
  lemma {:induction false} SelectPartitions(ranked: seq<PendingBundle>, budget: u64)
    ensures multiset(Select(ranked, budget).winners) + multiset(Select(ranked, budget).losers)
         == multiset(ranked)
  {
    if ranked != [] {
      var init, last := ranked[..|ranked| - 1], ranked[|ranked| - 1];
      SelectPartitions(init, budget);
      InitLast(ranked);
    }
  }

  /** Both sides keep the ranked order. */
  lemma {:induction false} SelectKeepsOrder(ranked: seq<PendingBundle>, budget: u64)
    ensures Subsequence(Select(ranked, budget).winners, ranked)
    ensures Subsequence(Select(ranked, budget).losers, ranked)
  {
    if ranked != [] {
      var init, last := ranked[..|ranked| - 1], ranked[|ranked| - 1];
      SelectKeepsOrder(init, budget);
      SubsequenceGrow(Select(init, budget).winners, init, last);
      SubsequenceGrow(Select(init, budget).losers, init, last);
      InitLast(ranked);
    }
  }

  /** The accumulators are the exact totals of the winners, as far as `u64` allows. */
  predicate Accounts(o: Outcome, budget: u64) {
    && (budget < U64_MAX ==> o.usedCu == SumCu(o.winners) <= budget)
    && (budget == U64_MAX ==> o.losers == [])
    && o.totalTip == if SumTip(o.winners) > U64_MAX then U64_MAX else SumTip(o.winners)
  }

  lemma TakeAccounts(o: Outcome, b: PendingBundle, budget: u64)
    requires Accounts(o, budget)
    ensures Accounts(Take(o, b, budget), budget)
  {
    SumSnoc(o.winners, b);
  }

  /** The unchecked `used_cu += cu` is exact below the maximal budget, and with the
      maximal budget nothing is ever rejected. The reported tip is the exact total,
      capped at the largest `u64`. */
  lemma {:induction false} SelectAccounts(ranked: seq<PendingBundle>, budget: u64)
    ensures Accounts(Select(ranked, budget), budget)
  {
    if ranked != [] {
      var init, last := ranked[..|ranked| - 1], ranked[|ranked| - 1];
      SelectAccounts(init, budget);
      TakeAccounts(Select(init, budget), last, budget);
      assert Select(ranked, budget) == Take(Select(init, budget), last, budget);
    }
  }

  /** Where nothing is rejected, everything wins. */
  lemma {:induction false} AllWin(ranked: seq<PendingBundle>, budget: u64)
    requires Select(ranked, budget).losers == []
    ensures Select(ranked, budget).winners == ranked
  {
    if ranked != [] {
      AllWin(ranked[..|ranked| - 1], budget);
    }
  }

  /** The winners respect the budget exactly when the budget is below `u64::MAX` or
      the whole ranked list fits in a `u64` anyway. */
  lemma BudgetRespected(buffer: seq<PendingBundle>, cfg: Config, now: nat)
    ensures SumCu(RunAuction(buffer, cfg, now).winners) <= cfg.budget
       <==> cfg.budget < U64_MAX || SumCu(Survivors(buffer, cfg, now)) <= U64_MAX
  {
    SelectAccounts(Ranked(buffer, cfg, now), cfg.budget);
    if cfg.budget == U64_MAX {
      AllWin(Ranked(buffer, cfg, now), cfg.budget);
    }
    SortFacts(Survivors(buffer, cfg, now), KeyOf(cfg.density));
    SumPermutation(Ranked(buffer, cfg, now), Survivors(buffer, cfg, now));
  }

  /** The failing family is not empty: two half-range bundles overrun a `u64::MAX`
      budget, and the unchecked accumulator wraps to a small number. */
  lemma MaximalBudgetOverruns(d: Density, b: PendingBundle, c: PendingBundle, now: nat)
    requires b.received == now && c.received == now
    requires b.sim == Some(SimOutcome(true, U64_MAX)) && c.sim == Some(SimOutcome(true, 2))
    ensures var o := RunAuction([b, c], Config(d, U64_MAX, 1), now);
      SumCu(o.winners) > U64_MAX && o.usedCu == 1
  {
    var cfg := Config(d, U64_MAX, 1);
    FilterAll([b, c], SurvivalTest(now, 1));
    var r := Ranked([b, c], cfg, now);
    SortPair(b, c, KeyOf(d));
    SelectPair(r[0], r[1], U64_MAX);
    SelectAccounts(r, U64_MAX);
    AllWin(r, U64_MAX);
  }

  lemma SortPair<T>(b: T, c: T, key: T -> real)
    ensures Sort([b, c], key) == if key(b) >= key(c) then [b, c] else [c, b]
  {
    assert [b, c] == [b] + [c] && [b] == [] + [b];
    SortAppend([], b, key);
    SortAppend([b], c, key);
    assert [b][1..] == [];
  }

  lemma SelectPair(b: PendingBundle, c: PendingBundle, budget: u64)
    ensures Select([b, c], budget) == Take(Take(Select([], budget), b, budget), c, budget)
    ensures SumCu([b, c]) == b.Cu() + c.Cu() && SumTip([b, c]) == b.tip + c.tip
  {
    assert [b, c] == [b] + [c] && [b] == [] + [b];
    SelectSnoc([], b, budget);
    SelectSnoc([b], c, budget);
    SumSnoc([], b);
    SumSnoc([b], c);
  }

  /** Maximality: no rejected bundle would fit beside the final winners. */
  lemma {:induction false} LosersDoNotFit(ranked: seq<PendingBundle>, budget: u64, b: PendingBundle)
    requires b in Select(ranked, budget).losers
    ensures SumCu(Select(ranked, budget).winners) + b.Cu() > budget
  {
    var init, last := ranked[..|ranked| - 1], ranked[|ranked| - 1];
    SelectAccounts(ranked, budget);
    SelectAccounts(init, budget);
    SumSnoc(Select(init, budget).winners, last);
    if b in Select(init, budget).losers {
      LosersDoNotFit(init, budget, b);
    }
  }

  /** A bundle that is charged no compute always wins. */
  lemma {:induction false} FreeBundlesWin(ranked: seq<PendingBundle>, budget: u64, b: PendingBundle)
    requires b in ranked && b.Cu() == 0
    ensures b in Select(ranked, budget).winners && b !in Select(ranked, budget).losers
  {
    SelectPartitions(ranked, budget);
    SelectAccounts(ranked, budget);
    if b in Select(ranked, budget).losers {
      LosersDoNotFit(ranked, budget, b);
      assert false;
    }
    assert b in multiset(ranked);
  }

  // ----- totals do not depend on order -----

  lemma {:induction false} SumConcat(a: seq<PendingBundle>, b: seq<PendingBundle>)
    ensures SumCu(a + b) == SumCu(a) + SumCu(b)
    ensures SumTip(a + b) == SumTip(a) + SumTip(b)
    decreases |b|
  {
    if b == [] {
      assert a + b == a;
    } else {
      var init, last := b[..|b| - 1], b[|b| - 1];
      SumConcat(a, init);
      SumSnoc(a + init, last);
      assert a + init + [last] == a + b;
    }
  }

  lemma SumRemove(s: seq<PendingBundle>, i: nat)
    requires i < |s|
    ensures var r := s[..i] + s[i + 1..];
      && SumCu(s) == SumCu(r) + s[i].Cu() && SumTip(s) == SumTip(r) + s[i].tip
      && multiset(s) == multiset(r) + multiset{s[i]}
  {
    SumSnoc(s[..i], s[i]);
    SumConcat(s[..i] + [s[i]], s[i + 1..]);
    SumConcat(s[..i], s[i + 1..]);
    AroundIndex(s, i);
  }

  lemma {:induction false} SumPermutation(a: seq<PendingBundle>, b: seq<PendingBundle>)
    requires multiset(a) == multiset(b)
    ensures SumCu(a) == SumCu(b) && SumTip(a) == SumTip(b)
    decreases |a|
  {
    if a == [] {
      assert |multiset(b)| == 0;
    } else {
      var last := a[|a| - 1];
      assert a == a[..|a| - 1] + [last];
      assert last in multiset(b);
      var i :| 0 <= i < |b| && b[i] == last;
      SumRemove(b, i);
      assert multiset(a[..|a| - 1]) == multiset(a) - multiset{last};
      SumPermutation(a[..|a| - 1], b[..i] + b[i + 1..]);
    }
  }
}
