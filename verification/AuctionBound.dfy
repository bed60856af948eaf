/** How far the skip-greedy selection can be from the best possible one. */
module AuctionBound {
  import opened Common
  import opened Bundles
  import opened StableSort
  import opened AuctionSpec
  import opened AuctionTheorems

  /** Comparing exact densities is comparing cross products. */
  lemma CrossMultiplication(ta: u64, ca: u64, tb: u64, cb: u64)
    ensures ExactDensity(ta, ca) >= ExactDensity(tb, cb) <==> ta * Max(cb, 1) >= tb * Max(ca, 1)
  {
    QuotientOrder(ta as real, Max(ca, 1) as real, tb as real, Max(cb, 1) as real);
    CastProduct(ta, Max(cb, 1));
    CastProduct(tb, Max(ca, 1));
  }

  lemma CastProduct(x: int, y: int)
    ensures (x * y) as real == x as real * y as real
  {
  }

  lemma QuotientOrder(x: real, a: real, y: real, b: real)
    requires a > 0.0 && b > 0.0
    ensures x / a >= y / b <==> x * b >= y * a
  {
    var p, q := x / a, y / b;
    assert x * b == p * (a * b) by { assert x == p * a; }
    assert y * a == q * (a * b) by { assert y == q * b; }
    ScaleOrder(p, q, a * b);
  }

  lemma ScaleOrder(p: real, q: real, m: real)
    requires m > 0.0
    ensures p >= q <==> p * m >= q * m
  {
  }

  /** Position `k` holds the first rejected bundle; everything before it was taken. */
  ghost predicate FirstLoserAt(ranked: seq<PendingBundle>, budget: u64, k: nat) {
    && k < |ranked| && Select(ranked, budget).losers != [] && ranked[k] == Select(ranked, budget).losers[0]
    && Select(ranked[..k], budget).winners == ranked[..k] && Select(ranked[..k], budget).losers == []
    && !Fits(Select(ranked[..k], budget).usedCu, ranked[k], budget)
  }

  lemma {:induction false} FirstLoser(ranked: seq<PendingBundle>, budget: u64) returns (k: nat)
    requires Select(ranked, budget).losers != []
    ensures FirstLoserAt(ranked, budget, k)
  {
    var init, last := ranked[..|ranked| - 1], ranked[|ranked| - 1];
    assert Select(ranked, budget) == Take(Select(init, budget), last, budget);
    if Select(init, budget).losers == [] {
      k := |init|;
      AllWin(init, budget);
    } else {
      k := FirstLoser(init, budget);
      FirstLoserStays(init, last, budget, k);
      InitLast(ranked);
    }
  }

  lemma FirstLoserStays(ranked: seq<PendingBundle>, b: PendingBundle, budget: u64, k: nat)
    requires FirstLoserAt(ranked, budget, k)
    ensures FirstLoserAt(ranked + [b], budget, k)
  {
    SelectSnoc(ranked, b, budget);
    assert (ranked + [b])[..k] == ranked[..k];
  }

  // ----- the fractional relaxation, priced by the first rejected bundle -----

  type Weight = PendingBundle -> real

  function Total(w: Weight, s: seq<PendingBundle>): real {
    if s == [] then 0.0 else Total(w, s[..|s| - 1]) + w(s[|s| - 1])
  }

  lemma TotalSnoc(w: Weight, s: seq<PendingBundle>, b: PendingBundle)
    ensures Total(w, s + [b]) == Total(w, s) + w(b)
  {
    assert (s + [b])[..|s|] == s;
  }

  lemma {:induction false} TotalConcat(w: Weight, a: seq<PendingBundle>, b: seq<PendingBundle>)
    ensures Total(w, a + b) == Total(w, a) + Total(w, b)
    decreases |b|
  {
    if b == [] {
      assert a + b == a;
    } else {
      TotalConcat(w, a, b[..|b| - 1]);
      TotalSnoc(w, a + b[..|b| - 1], b[|b| - 1]);
      assert a + b[..|b| - 1] + [b[|b| - 1]] == a + b;
    }
  }

  lemma TotalSplit(w: Weight, before: seq<PendingBundle>, b: PendingBundle, after: seq<PendingBundle>)
    ensures Total(w, before + [b] + after) == Total(w, before + after) + w(b)
  {
    TotalSnoc(w, before, b);
    TotalConcat(w, before + [b], after);
    TotalConcat(w, before, after);
  }

  lemma TotalRemove(w: Weight, s: seq<PendingBundle>, i: nat)
    requires i < |s|
    ensures Total(w, s) == Total(w, s[..i] + s[i + 1..]) + w(s[i])
  {
    AroundIndex(s, i);
    TotalSplit(w, s[..i], s[i], s[i + 1..]);
  }

  /** `worth` of a choice against `cost` of its compute; `top` bounds the worth from
      above, and the first `k` ranked bundles come before the price setter. */
  datatype Pricing = Pricing(worth: Weight, top: Weight, cost: Weight, k: nat)

  /** An upper bound on what position `i` of the ranking can gain. */
  function Cap(p: Pricing, b: PendingBundle, i: nat): real {
    if i < p.k then p.top(b) - p.cost(b)
    else if b.Cu() == 0 then p.top(b)
    else 0.0
  }

  function SumCap(p: Pricing, s: seq<PendingBundle>): real {
    if s == [] then 0.0 else SumCap(p, s[..|s| - 1]) + Cap(p, s[|s| - 1], |s| - 1)
  }

  ghost predicate Dominates(p: Pricing, ranked: seq<PendingBundle>) {
    forall i :: 0 <= i < |ranked| ==>
      Cap(p, ranked[i], i) >= 0.0 && Cap(p, ranked[i], i) >= p.worth(ranked[i]) - p.cost(ranked[i])
  }

  /** Weak duality: no choice of ranked bundles gains more than the caps allow. */
  lemma {:induction false} GainBelowCaps(p: Pricing, chosen: seq<PendingBundle>, ranked: seq<PendingBundle>)
    requires multiset(chosen) <= multiset(ranked)
    requires Dominates(p, ranked)
    ensures Total(p.worth, chosen) - Total(p.cost, chosen) <= SumCap(p, ranked)
    decreases |ranked|
  {
    if ranked == [] {
      assert |multiset(chosen)| == 0;
    } else {
      var init, last := ranked[..|ranked| - 1], ranked[|ranked| - 1];
      InitLast(ranked);
      assert Dominates(p, init);
      if last in chosen {
        var i :| 0 <= i < |chosen| && chosen[i] == last;
        var rest := chosen[..i] + chosen[i + 1..];
        SumRemove(chosen, i);
        TotalRemove(p.worth, chosen, i);
        TotalRemove(p.cost, chosen, i);
        assert multiset(rest) == multiset(chosen) - multiset{last};
        assert multiset(init) == multiset(ranked) - multiset{last};
        GainBelowCaps(p, rest, init);
      } else {
        assert multiset(chosen)[last] == 0;
        GainBelowCaps(p, chosen, init);
      }
    }
  }

  /** The caps add up to no more than the winners' worth minus the cost of the bundles
      taken before the price setter. */
  lemma {:induction false} CapsBelowWinners(p: Pricing, ranked: seq<PendingBundle>, budget: u64)
    requires forall b :: p.top(b) >= 0.0
    requires p.k <= |ranked| && Select(ranked[..p.k], budget).winners == ranked[..p.k]
    ensures SumCap(p, ranked)
         <= Total(p.top, Select(ranked, budget).winners) - Total(p.cost, ranked[..p.k])
    decreases |ranked|
  {
    if |ranked| == p.k {
      CapsBeforePriceSetter(p, ranked);
      assert ranked[..p.k] == ranked;
    } else {
      var init, last := ranked[..|ranked| - 1], ranked[|ranked| - 1];
      assert init[..p.k] == ranked[..p.k];
      CapsBelowWinners(p, init, budget);
      TotalSnoc(p.top, Select(init, budget).winners, last);
      assert p.top(last) >= 0.0;
      if last.Cu() == 0 {
        FreeFits(init, last, budget);
      }
    }
  }

  lemma FreeFits(taken: seq<PendingBundle>, b: PendingBundle, budget: u64)
    requires b.Cu() == 0
    ensures Fits(Select(taken, budget).usedCu, b, budget)
  {
    SelectAccounts(taken, budget);
  }

  lemma {:induction false} CapsBeforePriceSetter(p: Pricing, taken: seq<PendingBundle>)
    requires |taken| <= p.k
    ensures SumCap(p, taken) == Total(p.top, taken) - Total(p.cost, taken)
  {
    if taken != [] {
      CapsBeforePriceSetter(p, taken[..|taken| - 1]);
    }
  }

  // ----- prices -----

  /** `n` copies of `x`: a price times a quantity, kept out of nonlinear arithmetic. */
  function Times(x: real, n: nat): real {
    if n == 0 then 0.0 else Times(x, n - 1) + x
  }

  lemma {:induction false} TimesIsProduct(x: real, n: nat)
    ensures Times(x, n) == x * n as real
  {
    if n != 0 {
      TimesIsProduct(x, n - 1);
      assert x * (n - 1) as real + x == x * n as real;
    }
  }

  lemma {:induction false} TimesOne(n: nat)
    ensures Times(1.0, n) == n as real
  {
    if n != 0 {
      TimesOne(n - 1);
    }
  }

  lemma {:induction false} TimesAdd(x: real, m: nat, n: nat)
    ensures Times(x, m + n) == Times(x, m) + Times(x, n)
    decreases n
  {
    if n != 0 {
      TimesAdd(x, m, n - 1);
    }
  }

  lemma {:induction false} TimesMonotone(x: real, y: real, n: nat)
    requires 0.0 <= x <= y
    ensures 0.0 <= Times(x, n) <= Times(y, n)
  {
    if n != 0 {
      TimesMonotone(x, y, n - 1);
    }
  }

  lemma TimesGrows(x: real, m: nat, n: nat)
    requires 0.0 <= x && m <= n
    ensures Times(x, m) <= Times(x, n)
  {
    TimesAdd(x, m, n - m);
    TimesMonotone(x, x, n - m);
  }

  function TipTimes(x: real): Weight { (b: PendingBundle) => Times(x, b.tip) }
  function CuTimes(x: real): Weight { (b: PendingBundle) => Times(x, b.Cu()) }

  lemma {:induction false} TotalTip(x: real, s: seq<PendingBundle>)
    ensures Total(TipTimes(x), s) == Times(x, SumTip(s))
  {
    if s != [] {
      TotalTip(x, s[..|s| - 1]);
      TimesAdd(x, SumTip(s[..|s| - 1]), s[|s| - 1].tip);
    }
  }

  lemma {:induction false} TotalCu(x: real, s: seq<PendingBundle>)
    ensures Total(CuTimes(x), s) == Times(x, SumCu(s))
  {
    if s != [] {
      TotalCu(x, s[..|s| - 1]);
      TimesAdd(x, SumCu(s[..|s| - 1]), s[|s| - 1].Cu());
    }
  }

  /** The ranking number stays within constant factors of the exact quotient: times the
      charged compute it brackets the tip. */
  ghost predicate Within(d: Density, lo: real, hi: real) {
    && 0.0 < lo <= hi
    && forall t: u64, c: u64 {:trigger d(t, c)} ::
         d(t, c) >= 0.0 && Times(lo, t) <= Times(d(t, c), Max(c, 1)) <= Times(hi, t)
  }

  /** A quotient computed with relative error between `lo` and `hi` qualifies. */
  lemma RelativeErrorIsWithin(d: Density, lo: real, hi: real)
    requires 0.0 < lo <= hi
    requires forall t: u64, c: u64 :: lo * ExactDensity(t, c) <= d(t, c) <= hi * ExactDensity(t, c)
    ensures Within(d, lo, hi)
  {
    forall t: u64, c: u64
      ensures d(t, c) >= 0.0 && Times(lo, t) <= Times(d(t, c), Max(c, 1)) <= Times(hi, t)
    {
      BracketsTip(t, c, d(t, c), lo, hi);
    }
  }

  lemma BracketsTip(t: u64, c: u64, key: real, lo: real, hi: real)
    requires 0.0 < lo && lo * ExactDensity(t, c) <= key <= hi * ExactDensity(t, c)
    ensures key >= 0.0 && Times(lo, t) <= Times(key, Max(c, 1)) <= Times(hi, t)
  {
    PriceMath(lo, hi, t as real, Max(c, 1) as real, key);
    TimesIsProduct(lo, t);
    TimesIsProduct(key, Max(c, 1));
    TimesIsProduct(hi, t);
  }

  lemma PriceFacts(cfg: Config, lo: real, hi: real, b: PendingBundle)
    requires Within(cfg.density, lo, hi)
    ensures var key := KeyOf(cfg.density)(b);
      key >= 0.0 && Times(lo, b.tip) <= Times(key, Max(b.Cu(), 1)) <= Times(hi, b.tip)
  {
    assert cfg.density(b.tip, b.Cu()) >= 0.0;
  }

  lemma PriceMath(lo: real, hi: real, tip: real, m: real, key: real)
    requires 0.0 < lo && 0.0 <= tip && 0.0 < m && lo * (tip / m) <= key <= hi * (tip / m)
    ensures key >= 0.0 && lo * tip <= key * m <= hi * tip
  {
    var d := tip / m;
    assert d * m == tip && d >= 0.0;
    Scale(0.0, d, lo);
    Scale(lo * d, key, m);
    Scale(key, hi * d, m);
    assert lo * d * m == lo * (d * m) && hi * d * m == hi * (d * m);
  }

  /** Multiplying by something nonnegative keeps the order. */
  lemma Scale(x: real, y: real, m: real)
    requires x <= y && m >= 0.0
    ensures x * m <= y * m && m * x <= m * y
  {
  }

  function PricedBy(lo: real, hi: real, price: real, k: nat): Pricing {
    Pricing(TipTimes(lo), TipTimes(hi), CuTimes(price), k)
  }

  /** The price setter's ranking number prices every position correctly. */
  lemma CapsDominate(cfg: Config, lo: real, hi: real, k: nat, ranked: seq<PendingBundle>)
    requires Within(cfg.density, lo, hi)
    requires Descending(ranked, KeyOf(cfg.density)) && k < |ranked|
    ensures Dominates(PricedBy(lo, hi, KeyOf(cfg.density)(ranked[k]), k), ranked)
  {
    var key := KeyOf(cfg.density);
    var price := key(ranked[k]);
    var p := PricedBy(lo, hi, price, k);
    PriceFacts(cfg, lo, hi, ranked[k]);
    forall i | 0 <= i < |ranked|
      ensures Cap(p, ranked[i], i) >= 0.0 && Cap(p, ranked[i], i) >= p.worth(ranked[i]) - p.cost(ranked[i])
    {
      assert if i < k then key(ranked[i]) >= price else key(ranked[i]) <= price;
      CapDominates(cfg, lo, hi, price, k, ranked[i], i);
    }
  }

  lemma CapDominates(cfg: Config, lo: real, hi: real, price: real, k: nat, b: PendingBundle, i: nat)
    requires Within(cfg.density, lo, hi) && price >= 0.0
    requires if i < k then KeyOf(cfg.density)(b) >= price else KeyOf(cfg.density)(b) <= price
    ensures var p := PricedBy(lo, hi, price, k);
      Cap(p, b, i) >= 0.0 && Cap(p, b, i) >= p.worth(b) - p.cost(b)
  {
    var key := KeyOf(cfg.density)(b);
    PriceFacts(cfg, lo, hi, b);
    TimesMonotone(lo, hi, b.tip);
    if i < k {
      TimesMonotone(price, key, Max(b.Cu(), 1));
      TimesGrows(price, b.Cu(), Max(b.Cu(), 1));
    } else {
      TimesMonotone(key, price, b.Cu());
    }
  }

  // ----- the bounds -----

  /** A selection of survivors that fits the budget. */
  ghost predicate Feasible(chosen: seq<PendingBundle>, buffer: seq<PendingBundle>, cfg: Config, now: nat) {
    multiset(chosen) <= multiset(Survivors(buffer, cfg, now)) && SumCu(chosen) <= cfg.budget
  }

  /** Weak duality with the ranking number of position `k` as the price. */
  lemma PricedBound(
    cfg: Config, lo: real, hi: real, chosen: seq<PendingBundle>, ranked: seq<PendingBundle>, k: nat)
    requires Within(cfg.density, lo, hi)
    requires Descending(ranked, KeyOf(cfg.density)) && multiset(chosen) <= multiset(ranked)
    requires k < |ranked| && Select(ranked[..k], cfg.budget).winners == ranked[..k]
    ensures var price := KeyOf(cfg.density)(ranked[k]);
      Times(lo, SumTip(chosen)) - Times(price, SumCu(chosen))
      <= Times(hi, SumTip(Select(ranked, cfg.budget).winners)) - Times(price, SumCu(ranked[..k]))
  {
    var price := KeyOf(cfg.density)(ranked[k]);
    var p := PricedBy(lo, hi, price, k);
    CapsDominate(cfg, lo, hi, k, ranked);
    GainBelowCaps(p, chosen, ranked);
    forall b: PendingBundle ensures p.top(b) >= 0.0 {
      TimesMonotone(hi, hi, b.tip);
    }
    CapsBelowWinners(p, ranked, cfg.budget);
    TotalTip(lo, chosen);
    TotalCu(price, chosen);
    TotalTip(hi, Select(ranked, cfg.budget).winners);
    TotalCu(price, ranked[..k]);
  }

  lemma SlackAtRejection(ranked: seq<PendingBundle>, budget: u64, k: nat)
    requires k < |ranked|
    requires Select(ranked[..k], budget).winners == ranked[..k]
    requires !Fits(Select(ranked[..k], budget).usedCu, ranked[k], budget)
    ensures ranked[..k] <= Select(ranked, budget).winners
    ensures SumCu(ranked[..k]) <= budget < SumCu(ranked[..k]) + ranked[k].Cu()
  {
    SelectAccounts(ranked[..k], budget);
    PrefixWinners(ranked[..k], ranked[k..], budget);
    assert ranked[..k] + ranked[k..] == ranked;
  }

  /** Valued at `lo` per lamport, `chosen` earns no more than the winners at `hi` per lamport
      plus the compute that `taken` leaves unused, sold at `price`. */
  ghost predicate WithinSlack(
    chosen: seq<PendingBundle>, winners: seq<PendingBundle>, taken: seq<PendingBundle>,
    lo: real, hi: real, price: real, budget: nat)
  {
    && SumCu(taken) <= budget
    && Times(lo, SumTip(chosen)) <= Times(hi, SumTip(winners)) + Times(price, budget - SumCu(taken))
  }

  lemma SellSlack(
    chosen: seq<PendingBundle>, winners: seq<PendingBundle>, taken: seq<PendingBundle>,
    lo: real, hi: real, price: real, budget: nat)
    requires price >= 0.0 && SumCu(chosen) <= budget && SumCu(taken) <= budget
    requires Times(lo, SumTip(chosen)) - Times(price, SumCu(chosen))
          <= Times(hi, SumTip(winners)) - Times(price, SumCu(taken))
    ensures WithinSlack(chosen, winners, taken, lo, hi, price, budget)
  {
    TimesGrows(price, SumCu(chosen), budget);
    TimesAdd(price, SumCu(taken), budget - SumCu(taken));
  }

  lemma SlackAt(
    cfg: Config, lo: real, hi: real, chosen: seq<PendingBundle>, ranked: seq<PendingBundle>, k: nat)
    requires Within(cfg.density, lo, hi)
    requires Descending(ranked, KeyOf(cfg.density)) && multiset(chosen) <= multiset(ranked)
    requires k < |ranked| && Select(ranked[..k], cfg.budget).winners == ranked[..k]
    requires SumCu(chosen) <= cfg.budget && SumCu(ranked[..k]) <= cfg.budget
    ensures WithinSlack(chosen, Select(ranked, cfg.budget).winners, ranked[..k],
                        lo, hi, KeyOf(cfg.density)(ranked[k]), cfg.budget)
  {
    PricedBound(cfg, lo, hi, chosen, ranked, k);
    PriceIsNonnegative(cfg, lo, hi, ranked[k]);
    SellSlack(chosen, Select(ranked, cfg.budget).winners, ranked[..k],
              lo, hi, KeyOf(cfg.density)(ranked[k]), cfg.budget);
  }

  lemma PriceIsNonnegative(cfg: Config, lo: real, hi: real, b: PendingBundle)
    requires Within(cfg.density, lo, hi)
    ensures KeyOf(cfg.density)(b) >= 0.0
  {
    PriceFacts(cfg, lo, hi, b);
  }

  /** What any feasible choice can earn beyond the winners is at most the price of the
      compute left over when the first bundle `ranked[k]` was rejected. */
  lemma SlackBound(buffer: seq<PendingBundle>, chosen: seq<PendingBundle>, cfg: Config, now: nat, lo: real, hi: real)
    returns (k: nat)
    requires Within(cfg.density, lo, hi)
    requires Feasible(chosen, buffer, cfg, now)
    requires RunAuction(buffer, cfg, now).losers != []
    ensures var ranked, o := Ranked(buffer, cfg, now), RunAuction(buffer, cfg, now);
      && k < |ranked| && ranked[k] == o.losers[0] && ranked[..k] <= o.winners
      && SumCu(ranked[..k]) <= cfg.budget < SumCu(ranked[..k]) + ranked[k].Cu()
      && WithinSlack(chosen, o.winners, ranked[..k], lo, hi, KeyOf(cfg.density)(ranked[k]), cfg.budget)
  {
    var ranked := Ranked(buffer, cfg, now);
    k := FirstLoser(ranked, cfg.budget);
    SlackAtRejection(ranked, cfg.budget, k);
    SortFacts(Survivors(buffer, cfg, now), KeyOf(cfg.density));
    SlackAt(cfg, lo, hi, chosen, ranked, k);
  }

  /** `bound` lamports at `hi` are worth at least `earned` lamports at `lo`. */
  ghost predicate RatioHolds(lo: real, hi: real, earned: nat, bound: nat) {
    Times(lo, earned) <= Times(hi, bound)
  }

  function Scaled(factor: real, lamports: nat): real {
    factor * lamports as real
  }

  lemma RatioMeansProduct(lo: real, hi: real, earned: nat, bound: nat)
    requires RatioHolds(lo, hi, earned, bound)
    ensures Scaled(lo, earned) <= Scaled(hi, bound)
  {
    TimesIsProduct(lo, earned);
    TimesIsProduct(hi, bound);
  }

  lemma SubTotal(lo: real, hi: real, chosen: seq<PendingBundle>, all: seq<PendingBundle>)
    requires 0.0 < lo <= hi && multiset(chosen) <= multiset(all)
    ensures RatioHolds(lo, hi, SumTip(chosen), SumTip(all))
  {
    SubSum(chosen, all);
    TimesMonotone(lo, hi, SumTip(chosen));
    TimesGrows(hi, SumTip(chosen), SumTip(all));
  }

  lemma {:induction false} SubSum(chosen: seq<PendingBundle>, all: seq<PendingBundle>)
    requires multiset(chosen) <= multiset(all)
    ensures SumTip(chosen) <= SumTip(all)
    decreases |chosen|
  {
    if chosen != [] {
      var init, last := chosen[..|chosen| - 1], chosen[|chosen| - 1];
      InitLast(chosen);
      assert last in multiset(all);
      var i :| 0 <= i < |all| && all[i] == last;
      SumRemove(all, i);
      assert multiset(init) == multiset(chosen) - multiset{last};
      SubSum(init, all[..i] + all[i + 1..]);
    }
  }

  /** The winners' exact total, plus the tip of the first rejected bundle if there is one. */
  function TipWithFirstLoser(o: Outcome): nat {
    SumTip(o.winners) + if o.losers == [] then 0 else o.losers[0].tip
  }

  lemma ApproximationRatio(
    buffer: seq<PendingBundle>, chosen: seq<PendingBundle>, cfg: Config, now: nat, lo: real, hi: real)
    requires Within(cfg.density, lo, hi)
    requires Feasible(chosen, buffer, cfg, now)
    ensures RatioHolds(lo, hi, SumTip(chosen), TipWithFirstLoser(RunAuction(buffer, cfg, now)))
  {
    if RunAuction(buffer, cfg, now).losers == [] {
      BoundWithoutLosers(buffer, chosen, cfg, now, lo, hi);
    } else {
      BoundWithLoser(buffer, chosen, cfg, now, lo, hi);
    }
  }

  /** The approximation bound, for every budget and every density within constant
      factors of the exact one: the winners and the first rejected bundle together earn
      at least `lo / hi` of what any feasible choice earns. */
  lemma ApproximationBound(
    buffer: seq<PendingBundle>, chosen: seq<PendingBundle>, cfg: Config, now: nat, lo: real, hi: real)
    requires Within(cfg.density, lo, hi)
    requires Feasible(chosen, buffer, cfg, now)
    ensures Scaled(lo, SumTip(chosen)) <= Scaled(hi, TipWithFirstLoser(RunAuction(buffer, cfg, now)))
  {
    ApproximationRatio(buffer, chosen, cfg, now, lo, hi);
    RatioMeansProduct(lo, hi, SumTip(chosen), TipWithFirstLoser(RunAuction(buffer, cfg, now)));
  }

  lemma BoundWithoutLosers(
    buffer: seq<PendingBundle>, chosen: seq<PendingBundle>, cfg: Config, now: nat, lo: real, hi: real)
    requires Within(cfg.density, lo, hi) && Feasible(chosen, buffer, cfg, now)
    requires RunAuction(buffer, cfg, now).losers == []
    ensures RatioHolds(lo, hi, SumTip(chosen), SumTip(RunAuction(buffer, cfg, now).winners))
  {
    AllWin(Ranked(buffer, cfg, now), cfg.budget);
    SortFacts(Survivors(buffer, cfg, now), KeyOf(cfg.density));
    SubTotal(lo, hi, chosen, Ranked(buffer, cfg, now));
  }

  lemma BoundWithLoser(
    buffer: seq<PendingBundle>, chosen: seq<PendingBundle>, cfg: Config, now: nat, lo: real, hi: real)
    requires Within(cfg.density, lo, hi) && Feasible(chosen, buffer, cfg, now)
    requires RunAuction(buffer, cfg, now).losers != []
    ensures var o := RunAuction(buffer, cfg, now);
      RatioHolds(lo, hi, SumTip(chosen), SumTip(o.winners) + o.losers[0].tip)
  {
    var ranked, o := Ranked(buffer, cfg, now), RunAuction(buffer, cfg, now);
    var k := SlackBound(buffer, chosen, cfg, now, lo, hi);
    LoserPaysForSlack(cfg, chosen, o.winners, ranked[..k], ranked[k], lo, hi);
  }

  lemma LoserPaysForSlack(
    cfg: Config, chosen: seq<PendingBundle>, winners: seq<PendingBundle>, taken: seq<PendingBundle>,
    r: PendingBundle, lo: real, hi: real)
    requires Within(cfg.density, lo, hi)
    requires cfg.budget < SumCu(taken) + r.Cu()
    requires WithinSlack(chosen, winners, taken, lo, hi, KeyOf(cfg.density)(r), cfg.budget)
    ensures RatioHolds(lo, hi, SumTip(chosen), SumTip(winners) + r.tip)
  {
    PriceFacts(cfg, lo, hi, r);
    TimesGrows(KeyOf(cfg.density)(r), cfg.budget - SumCu(taken), r.Cu());
    TimesAdd(hi, SumTip(winners), r.tip);
  }

  lemma ExactIsWithin()
    ensures Within(ExactDensity, 1.0, 1.0)
  {
    RelativeErrorIsWithin(ExactDensity, 1.0, 1.0);
  }

  /** With exact densities: any feasible choice earns at most the winners' exact total
      plus the tip of the first rejected bundle, and at most the winners' total if
      nothing was rejected. */
  lemma ExactApproximationBound(buffer: seq<PendingBundle>, chosen: seq<PendingBundle>, cfg: Config, now: nat)
    requires cfg.density == ExactDensity
    requires Feasible(chosen, buffer, cfg, now)
    ensures var o := RunAuction(buffer, cfg, now);
      SumTip(chosen) <= SumTip(o.winners) + if o.losers == [] then 0 else o.losers[0].tip
  {
    ExactIsWithin();
    ApproximationBound(buffer, chosen, cfg, now, 1.0, 1.0);
  }

  lemma NoWholeLamport(
    chosen: seq<PendingBundle>, winners: seq<PendingBundle>, taken: seq<PendingBundle>, price: real, budget: nat)
    requires WithinSlack(chosen, winners, taken, 1.0, 1.0, price, budget)
    requires Times(price, budget - SumCu(taken)) < 1.0
    ensures SumTip(chosen) <= SumTip(winners)
  {
    TimesOne(SumTip(chosen));
    TimesOne(SumTip(winners));
  }

  /** What `taken` leaves of the budget, sold at the density of `b`, is worth less than one
      lamport. */
  ghost predicate SlackIsWorthless(cfg: Config, taken: seq<PendingBundle>, b: PendingBundle) {
    SumCu(taken) <= cfg.budget && Times(KeyOf(cfg.density)(b), cfg.budget - SumCu(taken)) < 1.0
  }

  lemma NoLamportLeft(
    cfg: Config, chosen: seq<PendingBundle>, winners: seq<PendingBundle>, taken: seq<PendingBundle>, b: PendingBundle)
    requires SlackIsWorthless(cfg, taken, b)
    requires WithinSlack(chosen, winners, taken, 1.0, 1.0, KeyOf(cfg.density)(b), cfg.budget)
    ensures SumTip(chosen) <= SumTip(winners)
  {
    NoWholeLamport(chosen, winners, taken, KeyOf(cfg.density)(b), cfg.budget);
  }

  /** If a ranked prefix is taken whole and leaves compute that is worth less than one
      lamport at the density of the next bundle, greedy is optimal. */
  lemma OptimalWhenNearlyFull(buffer: seq<PendingBundle>, chosen: seq<PendingBundle>, cfg: Config, now: nat, k: nat)
    requires Within(cfg.density, 1.0, 1.0)
    requires Feasible(chosen, buffer, cfg, now) && k < |Ranked(buffer, cfg, now)|
    requires Select(Ranked(buffer, cfg, now)[..k], cfg.budget).winners == Ranked(buffer, cfg, now)[..k]
    requires SlackIsWorthless(cfg, Ranked(buffer, cfg, now)[..k], Ranked(buffer, cfg, now)[k])
    ensures SumTip(chosen) <= SumTip(RunAuction(buffer, cfg, now).winners)
  {
    var ranked := Ranked(buffer, cfg, now);
    SortFacts(Survivors(buffer, cfg, now), KeyOf(cfg.density));
    SlackAt(cfg, 1.0, 1.0, chosen, ranked, k);
    NoLamportLeft(cfg, chosen, RunAuction(buffer, cfg, now).winners, ranked[..k], ranked[k]);
  }

  lemma NoSlack(cfg: Config, taken: seq<PendingBundle>, b: PendingBundle)
    requires SumCu(taken) == cfg.budget
    ensures SlackIsWorthless(cfg, taken, b)
  {
  }

  /** In particular when the prefix uses the budget up exactly. */
  lemma OptimalWhenFull(buffer: seq<PendingBundle>, chosen: seq<PendingBundle>, cfg: Config, now: nat, k: nat)
    requires cfg.density == ExactDensity
    requires Feasible(chosen, buffer, cfg, now)
    requires k < |Ranked(buffer, cfg, now)| && SumCu(Ranked(buffer, cfg, now)[..k]) == cfg.budget
    requires Select(Ranked(buffer, cfg, now)[..k], cfg.budget).winners == Ranked(buffer, cfg, now)[..k]
    ensures SumTip(chosen) <= SumTip(RunAuction(buffer, cfg, now).winners)
  {
    ExactIsWithin();
    NoSlack(cfg, Ranked(buffer, cfg, now)[..k], Ranked(buffer, cfg, now)[k]);
    OptimalWhenNearlyFull(buffer, chosen, cfg, now, k);
  }

  /** Greedy is not optimal: for every `c > 2` there is an auction of two simulated bundles
      in which it earns 2 lamports although `c` lamports would fit. */
  lemma GreedyIsNotOptimal(c: u64, u: BundleUuid, v: BundleUuid, estU: u64, estV: u64, now: nat)
    requires 2 < c < U64_MAX
    ensures var small := PendingBundle(u, 2, estU, now, Some(SimOutcome(true, 1)));
      var large := PendingBundle(v, c, estV, now, Some(SimOutcome(true, c)));
      var cfg := Config(ExactDensity, c, 1);
      var o := RunAuction([large, small], cfg, now);
      && o.winners == [small] && o.losers == [large]
      && Feasible([large], [large, small], cfg, now)
      && SumTip([large]) == c && SumTip(o.winners) == 2
  {
    var small := PendingBundle(u, 2, estU, now, Some(SimOutcome(true, 1)));
    var large := PendingBundle(v, c, estV, now, Some(SimOutcome(true, c)));
    var cfg := Config(ExactDensity, c, 1);
    assert small.Cu() == 1 && large.Cu() == c;
    FilterAll([large, small], SurvivalTest(now, 1));
    CrossMultiplication(2, 1, c, c);
    CrossMultiplication(c, c, 2, 1);
    SortPair(large, small, KeyOf(ExactDensity));
    SelectPair(small, large, c);
    assert [large] == [] + [large] && [small] == [] + [small];
    SumSnoc([], large);
    SumSnoc([], small);
    assert [large, small] == [large] + [small];
  }
}
