/** Properties of whole auctions, and of pairs of auctions. */
module AuctionTheorems {
  import opened Common
  import opened Bundles
  import opened StableSort
  import opened AuctionSpec

  // ----- conservation -----

  lemma {:induction false} ThreeWaySplit(buffer: seq<PendingBundle>, now: nat, ttl: nat)
    ensures multiset(buffer)
         == multiset(Filter(buffer, SurvivalTest(now, ttl)))
          + multiset(Filter(buffer, ExpiryTest(now, ttl)))
          + multiset(Filter(buffer, FailureTest(now, ttl)))
  {
    if buffer != [] {
      ThreeWaySplit(buffer[1..], now, ttl);
      assert buffer == [buffer[0]] + buffer[1..];
    }
  }

  /** A run splits the buffer into winners, losers, expired and failed bundles. */
  lemma Conservation(buffer: seq<PendingBundle>, cfg: Config, now: nat)
    ensures var o := RunAuction(buffer, cfg, now);
      multiset(buffer)
      == multiset(o.winners) + multiset(o.losers)
       + multiset(Filter(buffer, ExpiryTest(now, cfg.ttl)))
       + multiset(Filter(buffer, FailureTest(now, cfg.ttl)))
  {
    ThreeWaySplit(buffer, now, cfg.ttl);
    SortFacts(Survivors(buffer, cfg, now), KeyOf(cfg.density));
    SelectPartitions(Ranked(buffer, cfg, now), cfg.budget);
  }

  /** A bundle is ranked, and so wins or loses, exactly when it is buffered, younger than
      the time to live, and not simulated with a failure. */
  lemma RankedExactly(buffer: seq<PendingBundle>, cfg: Config, now: nat, b: PendingBundle)
    ensures var o := RunAuction(buffer, cfg, now);
      b in o.winners || b in o.losers
      <==> b in buffer && SatSub(now, b.received) < cfg.ttl && (b.sim.None? || b.sim.value.ok)
  {
    var ranked, o := Ranked(buffer, cfg, now), RunAuction(buffer, cfg, now);
    SelectPartitions(ranked, cfg.budget);
    assert b in o.winners || b in o.losers <==> b in multiset(ranked);
    SortMember(Survivors(buffer, cfg, now), KeyOf(cfg.density), b);
    FilterMember(buffer, SurvivalTest(now, cfg.ttl), b);
  }

  /** The compute of a list in terms of the recorded figures: what simulation measured
      where it ran, the estimate where it did not. */
  function Charged(s: seq<PendingBundle>): nat {
    if s == [] then 0
    else
      var last := s[|s| - 1];
      Charged(s[..|s| - 1]) + match last.sim { case Some(o) => o.unitsConsumed case None => last.estCu }
  }

  lemma {:induction false} ChargedIsSum(s: seq<PendingBundle>)
    ensures Charged(s) == SumCu(s)
  {
    if s != [] {
      ChargedIsSum(s[..|s| - 1]);
    }
  }

  /** The budget law in terms of the recorded figures: below the maximal budget the winners
      are charged at most the budget, and at every budget each loser would exceed it. */
  lemma BudgetByFigures(buffer: seq<PendingBundle>, cfg: Config, now: nat)
    ensures var o := RunAuction(buffer, cfg, now);
      && (cfg.budget < 0xFFFF_FFFF_FFFF_FFFF ==> Charged(o.winners) <= cfg.budget)
      && forall b :: b in o.losers ==>
           Charged(o.winners) + (match b.sim { case Some(s) => s.unitsConsumed case None => b.estCu }) > cfg.budget
  {
    var ranked, o := Ranked(buffer, cfg, now), RunAuction(buffer, cfg, now);
    ChargedIsSum(o.winners);
    SelectAccounts(ranked, cfg.budget);
    forall b | b in o.losers ensures SumCu(o.winners) + b.Cu() > cfg.budget {
      LosersDoNotFit(ranked, cfg.budget, b);
    }
  }

  function AcceptedTest(): Publication -> bool { (p: Publication) => p.kind.Accepted? }
  function LostTest(): Publication -> bool { (p: Publication) => p.kind.LostAuction? }

  function AcceptedFor(s: seq<PendingBundle>): seq<Publication> {
    seq(|s|, i requires 0 <= i < |s| => Publication(s[i].bundle.uuid, Accepted(0)))
  }

  function LostFor(s: seq<PendingBundle>): seq<Publication> {
    seq(|s|, i requires 0 <= i < |s| => Publication(s[i].bundle.uuid, LostAuction(s[i].tip)))
  }

  /** One publication per ranked bundle: `Accepted` for the winners in winning order,
      `LostAuction` with the losing tip for the losers, and nothing else. */
  lemma {:induction false} OneResultEach(ranked: seq<PendingBundle>, budget: u64)
    ensures var o := Select(ranked, budget);
      && |o.results| == |ranked| == |o.winners| + |o.losers|
      && Filter(o.results, AcceptedTest()) == AcceptedFor(o.winners)
      && Filter(o.results, LostTest()) == LostFor(o.losers)
  {
    if ranked != [] {
      var init, last := ranked[..|ranked| - 1], ranked[|ranked| - 1];
      OneResultEach(init, budget);
      var before, after := Select(init, budget), Select(ranked, budget);
      var p := after.results[|before.results|];
      assert after.results == before.results + [p];
      FilterAppend(before.results, [p], AcceptedTest());
      FilterAppend(before.results, [p], LostTest());
      if Fits(before.usedCu, last, budget) {
        assert AcceptedFor(after.winners) == AcceptedFor(before.winners) + [p];
      } else {
        assert LostFor(after.losers) == LostFor(before.losers) + [p];
      }
    }
  }

  /** The results of a selection name the ranked bundles, one each and in order. */
  lemma {:induction false} ResultsInOrder(ranked: seq<PendingBundle>, budget: u64)
    ensures |Select(ranked, budget).results| == |ranked|
    ensures forall k :: 0 <= k < |ranked| ==> Select(ranked, budget).results[k].uuid == ranked[k].bundle.uuid
  {
    if ranked != [] {
      ResultsInOrder(ranked[..|ranked| - 1], budget);
    }
  }

  // ----- independence of losers -----

  lemma {:induction false} SelectWithout(ranked: seq<PendingBundle>, budget: u64, keep: PendingBundle -> bool)
    requires forall b :: b in Select(ranked, budget).winners ==> keep(b)
    ensures Select(Filter(ranked, keep), budget).winners == Select(ranked, budget).winners
    ensures Select(Filter(ranked, keep), budget).usedCu == Select(ranked, budget).usedCu
  {
    if ranked != [] {
      var init, last := ranked[..|ranked| - 1], ranked[|ranked| - 1];
      InitLast(ranked);
      assert forall b :: b in Select(init, budget).winners ==> b in Select(ranked, budget).winners;
      SelectWithout(init, budget, keep);
      FilterAppend(init, [last], keep);
      if keep(last) {
        assert Filter(ranked, keep) == Filter(init, keep) + [last];
        SelectSnoc(Filter(init, keep), last, budget);
      } else {
        assert Filter(ranked, keep) == Filter(init, keep);
        assert last !in Select(ranked, budget).winners;
        assert !Fits(Select(init, budget).usedCu, last, budget);
      }
    }
  }

  lemma {:induction false} FilterSwap<T>(s: seq<T>, p: T -> bool, q: T -> bool)
    ensures Filter(Filter(s, p), q) == Filter(Filter(s, q), p)
  {
    if s != [] {
      FilterSwap(s[1..], p, q);
      FilterAppend([s[0]], Filter(s[1..], p), q);
      FilterAppend([s[0]], Filter(s[1..], q), p);
      assert Filter([s[0]], p) == if p(s[0]) then [s[0]] else [];
      assert Filter([s[0]], q) == if q(s[0]) then [s[0]] else [];
    }
  }

  /** Deleting any bundles that did not win, whatever they were, changes neither the
      winners nor their order. */
  lemma LosersAreIrrelevant(buffer: seq<PendingBundle>, cfg: Config, now: nat, keep: PendingBundle -> bool)
    requires forall b :: b in RunAuction(buffer, cfg, now).winners ==> keep(b)
    ensures RunAuction(Filter(buffer, keep), cfg, now).winners == RunAuction(buffer, cfg, now).winners
  {
    FilterSwap(buffer, keep, SurvivalTest(now, cfg.ttl));
    SortFilter(Survivors(buffer, cfg, now), KeyOf(cfg.density), keep);
    SelectWithout(Ranked(buffer, cfg, now), cfg.budget, keep);
  }

  lemma {:induction false} WinnersDescend(ranked: seq<PendingBundle>, budget: u64, key: PendingBundle -> real)
    requires Descending(ranked, key)
    ensures Descending(Select(ranked, budget).winners, key)
  {
    if ranked != [] {
      var init, last := ranked[..|ranked| - 1], ranked[|ranked| - 1];
      assert Descending(init, key);
      WinnersDescend(init, budget, key);
      forall b | b in Select(init, budget).winners ensures key(b) >= key(last) {
        WinnerIsRanked(init, budget, b);
      }
    }
  }

  lemma WinnerIsRanked(ranked: seq<PendingBundle>, budget: u64, b: PendingBundle)
    requires b in Select(ranked, budget).winners
    ensures b in ranked
  {
    SelectPartitions(ranked, budget);
    assert b in multiset(ranked);
  }

  lemma {:induction false} SelectAgain(ranked: seq<PendingBundle>, budget: u64)
    ensures var w := Select(ranked, budget).winners;
      Select(w, budget).winners == w && Select(w, budget).usedCu == Select(ranked, budget).usedCu
  {
    if ranked != [] {
      var init, last := ranked[..|ranked| - 1], ranked[|ranked| - 1];
      SelectAgain(init, budget);
      SelectSnoc(Select(init, budget).winners, last, budget);
    }
  }

  /** Auctioning the winners among themselves returns exactly the winners. */
  lemma WinnersWinAgain(buffer: seq<PendingBundle>, cfg: Config, now: nat)
    ensures var w := RunAuction(buffer, cfg, now).winners; RunAuction(w, cfg, now).winners == w
  {
    var ranked := Ranked(buffer, cfg, now);
    var w := RunAuction(buffer, cfg, now).winners;
    SortFacts(Survivors(buffer, cfg, now), KeyOf(cfg.density));
    SelectPartitions(ranked, cfg.budget);
    forall b | b in w ensures Survives(b, now, cfg.ttl) {
      assert b in multiset(ranked);
      FilterMember(buffer, SurvivalTest(now, cfg.ttl), b);
    }
    FilterAll(w, SurvivalTest(now, cfg.ttl));
    WinnersDescend(ranked, cfg.budget, KeyOf(cfg.density));
    SortOfSorted(w, KeyOf(cfg.density));
    SelectAgain(ranked, cfg.budget);
  }

  // ----- bid monotonicity -----

  /** Paying more, or asking for less compute, never lowers the ranking number.
      Rounding is monotone, so the binary64 quotient qualifies like the exact one. */
  ghost predicate Monotone(d: Density) {
    forall t: u64, c: u64, t': u64, c': u64 :: t <= t' && c' <= c ==> d(t, c) <= d(t', c')
  }

  lemma ExactDensityIsMonotone()
    ensures Monotone(ExactDensity)
  {
    forall t: u64, c: u64, t': u64, c': u64 | t <= t' && c' <= c
      ensures ExactDensity(t, c) <= ExactDensity(t', c')
    {
      QuotientMonotone(t as real, Max(c, 1) as real, t' as real, Max(c', 1) as real);
    }
  }

  lemma QuotientMonotone(t: real, c: real, t': real, c': real)
    requires 0.0 <= t <= t' && 0.0 < c' <= c
    ensures t / c <= t' / c'
  {
    var q, q' := t / c, t' / c';
    assert q * c == t && q' * c' == t';
    if q > q' {
      assert false;
    }
  }

  /** The rank of the bundle that stands between `pre` and `post` in the buffer: how
      many survivors it has to stand behind. */
  function RankOf(pre: seq<PendingBundle>, b: PendingBundle, post: seq<PendingBundle>, cfg: Config, now: nat): nat {
    |Ahead(Survivors(pre, cfg, now), Survivors(post, cfg, now), KeyOf(cfg.density), KeyOf(cfg.density)(b))|
  }

  /** Whether the drain loop takes the bundle that stands between `pre` and `post`. */
  ghost predicate Wins(pre: seq<PendingBundle>, b: PendingBundle, post: seq<PendingBundle>, cfg: Config, now: nat) {
    var ranked := Ranked(pre + [b] + post, cfg, now);
    var k := RankOf(pre, b, post, cfg, now);
    Survives(b, now, cfg.ttl) && k < |ranked| && ranked[k] == b
      && Fits(Select(ranked[..k], cfg.budget).usedCu, b, cfg.budget)
  }

  lemma SurvivorsAround(pre: seq<PendingBundle>, b: PendingBundle, post: seq<PendingBundle>, cfg: Config, now: nat)
    requires Survives(b, now, cfg.ttl)
    ensures Survivors(pre + [b] + post, cfg, now)
         == Survivors(pre, cfg, now) + [b] + Survivors(post, cfg, now)
  {
    var p := SurvivalTest(now, cfg.ttl);
    FilterAppend(pre + [b], post, p);
    FilterAppend(pre, [b], p);
    assert Filter([b], p) == [b];
  }

  /** A survivor stands at its rank, and the ones before it are sorted as if alone. */
  lemma RankedAround(pre: seq<PendingBundle>, b: PendingBundle, post: seq<PendingBundle>, cfg: Config, now: nat)
    requires Survives(b, now, cfg.ttl)
    ensures var ranked := Ranked(pre + [b] + post, cfg, now);
      var key := KeyOf(cfg.density);
      var k := RankOf(pre, b, post, cfg, now);
      && k < |ranked| && ranked[k] == b
      && ranked[..k] == Sort(Ahead(Survivors(pre, cfg, now), Survivors(post, cfg, now), key, key(b)), key)
  {
    var key := KeyOf(cfg.density);
    var x, y := Survivors(pre, cfg, now), Survivors(post, cfg, now);
    SurvivorsAround(pre, b, post, cfg, now);
    SortAround(x, b, y, key);
    SortFacts(Ahead(x, y, key, key(b)), key);
  }

  lemma {:induction false} UsedGrows(a: seq<PendingBundle>, b: seq<PendingBundle>, budget: u64)
    requires budget < U64_MAX
    ensures Select(a, budget).usedCu <= Select(a + b, budget).usedCu
    decreases |b|
  {
    if b == [] {
      assert a + b == a;
    } else {
      var init, last := b[..|b| - 1], b[|b| - 1];
      UsedGrows(a, init, budget);
      SelectSnoc(a + init, last, budget);
      assert a + init + [last] == a + b;
      SelectAccounts(a + init, budget);
    }
  }

  lemma {:induction false} FilterNested<T>(s: seq<T>, key: T -> real, t: real, t': real)
    requires t <= t'
    ensures Filter(Filter(s, AtLeast(key, t)), AtLeast(key, t')) == Filter(s, AtLeast(key, t'))
    ensures Filter(Filter(s, Over(key, t)), Over(key, t')) == Filter(s, Over(key, t'))
  {
    if s != [] {
      FilterNested(s[1..], key, t, t');
    }
  }

  /** A bid that ranks no worse and is charged no more leaves a winner a winner: its new
      predecessors are a prefix of its old ones. */
  lemma RankMonotonicity(
    pre: seq<PendingBundle>, b: PendingBundle, b': PendingBundle, post: seq<PendingBundle>, cfg: Config, now: nat)
    requires Wins(pre, b, post, cfg, now)
    requires KeyOf(cfg.density)(b) <= KeyOf(cfg.density)(b') && b'.Cu() <= b.Cu() && Survives(b', now, cfg.ttl)
    ensures Wins(pre, b', post, cfg, now)
    ensures RankOf(pre, b', post, cfg, now) <= RankOf(pre, b, post, cfg, now)
  {
    var key := KeyOf(cfg.density);
    var x, y := Survivors(pre, cfg, now), Survivors(post, cfg, now);
    RankedAround(pre, b, post, cfg, now);
    RankedAround(pre, b', post, cfg, now);
    var t, t' := key(b), key(b');
    var xa, ya := Filter(x, AtLeast(key, t)), Filter(y, Over(key, t));
    CutSort(xa, ya, key, t');
    FilterNested(x, key, t, t');
    FilterNested(y, key, t, t');
    var ahead, ahead' := Sort(Ahead(x, y, key, t), key), Sort(Ahead(x, y, key, t'), key);
    var rest := Sort(Behind(xa, ya, key, t'), key);
    assert ahead == ahead' + rest;
    SortFacts(Ahead(x, y, key, t), key);
    SortFacts(Ahead(x, y, key, t'), key);
    SelectAccounts(ahead', cfg.budget);
    if cfg.budget < U64_MAX {
      UsedGrows(ahead', rest, cfg.budget);
    }
  }

  /** Raising a winner's tip, or lowering the compute it is charged, leaves it a winner. */
  lemma BidMonotonicity(
    pre: seq<PendingBundle>, b: PendingBundle, b': PendingBundle, post: seq<PendingBundle>, cfg: Config, now: nat)
    requires Monotone(cfg.density)
    requires Wins(pre, b, post, cfg, now)
    requires b.tip <= b'.tip && b'.Cu() <= b.Cu() && Survives(b', now, cfg.ttl)
    ensures Wins(pre, b', post, cfg, now)
    ensures RankOf(pre, b', post, cfg, now) <= RankOf(pre, b, post, cfg, now)
  {
    assert cfg.density(b.tip, b.Cu()) <= cfg.density(b'.tip, b'.Cu());
    RankMonotonicity(pre, b, b', post, cfg, now);
  }

  lemma {:induction false} PrefixWinners(a: seq<PendingBundle>, b: seq<PendingBundle>, budget: u64)
    ensures Select(a, budget).winners <= Select(a + b, budget).winners
    ensures Select(a, budget).losers <= Select(a + b, budget).losers
    decreases |b|
  {
    if b == [] {
      assert a + b == a;
    } else {
      var init, last := b[..|b| - 1], b[|b| - 1];
      PrefixWinners(a, init, budget);
      SelectSnoc(a + init, last, budget);
      assert a + init + [last] == a + b;
    }
  }

  /** The drain loop's decision at position `k` shows in the final lists. */
  lemma DecisionAt(ranked: seq<PendingBundle>, budget: u64, k: nat)
    requires k < |ranked|
    ensures if Fits(Select(ranked[..k], budget).usedCu, ranked[k], budget)
            then ranked[k] in Select(ranked, budget).winners
            else ranked[k] in Select(ranked, budget).losers
  {
    SelectSnoc(ranked[..k], ranked[k], budget);
    PrefixWinners(ranked[..k] + [ranked[k]], ranked[k + 1..], budget);
    assert ranked == ranked[..k] + [ranked[k]] + ranked[k + 1..];
  }

  lemma RankedOnce(pre: seq<PendingBundle>, b: PendingBundle, post: seq<PendingBundle>, cfg: Config, now: nat)
    requires b !in pre && b !in post && Survives(b, now, cfg.ttl)
    ensures multiset(Ranked(pre + [b] + post, cfg, now))[b] == 1
  {
    SurvivorsAround(pre, b, post, cfg, now);
    SortFacts(Survivors(pre + [b] + post, cfg, now), KeyOf(cfg.density));
    FilterMember(pre, SurvivalTest(now, cfg.ttl), b);
    FilterMember(post, SurvivalTest(now, cfg.ttl), b);
  }

  /** `Wins` says what the returned list says: a bundle whose value occurs once in the
      buffer wins exactly when it is among the winners. */
  lemma WinsIsMembership(pre: seq<PendingBundle>, b: PendingBundle, post: seq<PendingBundle>, cfg: Config, now: nat)
    requires b !in pre && b !in post
    ensures Wins(pre, b, post, cfg, now) <==> b in RunAuction(pre + [b] + post, cfg, now).winners
  {
    var ranked := Ranked(pre + [b] + post, cfg, now);
    var o := Select(ranked, cfg.budget);
    SelectPartitions(ranked, cfg.budget);
    assert forall e :: e in o.winners ==> e in multiset(ranked);
    if Survives(b, now, cfg.ttl) {
      RankedAround(pre, b, post, cfg, now);
      RankedOnce(pre, b, post, cfg, now);
      DecisionAt(ranked, cfg.budget, RankOf(pre, b, post, cfg, now));
      assert multiset(o.winners)[b] + multiset(o.losers)[b] == 1;
    } else {
      SortMember(Survivors(pre + [b] + post, cfg, now), KeyOf(cfg.density), b);
      FilterMember(pre + [b] + post, SurvivalTest(now, cfg.ttl), b);
    }
  }
}
