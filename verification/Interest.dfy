/** Accounts and programs of interest: what recent bundles write to and call.

    The registry keeps the last time each key was seen and forgets old keys. The theorems
    compare it with the full log of observations, which forgets nothing. */
module Interest {
  import opened Common
  import opened Bundles
  import opened Transactions

  type Seen = map<Pubkey, nat>

  // ----- writable positions -----

  /** Signed keys come first and end with the read-only ones; so do the unsigned keys. */
  function IsWritable(i: nat, n: nat, h: Header): bool {
    if i < h.numSigned then i < SatSub(h.numSigned, h.numReadonlySigned)
    else i < SatSub(n, h.numReadonlyUnsigned)
  }

  ghost predicate WellFormed(n: nat, h: Header) {
    h.numReadonlySigned <= h.numSigned && h.numSigned + h.numReadonlyUnsigned <= n
  }

  ghost function WritablePositions(n: nat, h: Header): set<nat> {
    set i | 0 <= i < n && IsWritable(i, n, h)
  }

  predicate Between(i: nat, a: nat, b: nat) { a <= i < b }

  ghost function Range(a: nat, b: nat): set<nat> { set i | 0 <= i < b && Between(i, a, b) }

  lemma {:induction false} RangeSize(a: nat, b: nat)
    requires a <= b
    ensures |Range(a, b)| == b - a
    decreases b
  {
    if a < b {
      RangeSize(a, b - 1);
      assert Range(a, b) == Range(a, b - 1) + {b - 1};
    } else {
      assert Range(a, b) == {};
    }
  }

  /** For every header, also a malformed one, the writable positions are two ranges. */
  lemma WritableRanges(n: nat, h: Header)
    ensures var signed, end := SatSub(h.numSigned, h.numReadonlySigned), SatSub(n, h.numReadonlyUnsigned);
      && WritablePositions(n, h) == Range(0, if signed < n then signed else n) + Range(h.numSigned, end)
      && |WritablePositions(n, h)| == (if signed < n then signed else n) + SatSub(end, h.numSigned)
  {
    var signed, end := SatSub(h.numSigned, h.numReadonlySigned), SatSub(n, h.numReadonlyUnsigned);
    var a, b := Range(0, if signed < n then signed else n), Range(h.numSigned, end);
    assert WritablePositions(n, h) == a + b;
    assert a * b == {};
    RangeSize(0, if signed < n then signed else n);
    if h.numSigned <= end {
      RangeSize(h.numSigned, end);
    } else {
      assert b == {};
    }
  }

  /** All keys but the read-only ones are writable exactly when the header is well formed
      or declares nothing read-only. */
  lemma WritableCount(n: nat, h: Header)
    ensures |WritablePositions(n, h)| == n - h.numReadonlySigned - h.numReadonlyUnsigned
       <==> WellFormed(n, h) || (h.numReadonlySigned == 0 && h.numReadonlyUnsigned == 0)
  {
    WritableRanges(n, h);
  }

  lemma WellFormedRanges(n: nat, h: Header)
    requires WellFormed(n, h)
    ensures WritablePositions(n, h)
         == Range(0, h.numSigned - h.numReadonlySigned) + Range(h.numSigned, n - h.numReadonlyUnsigned)
  {
    WritableRanges(n, h);
  }

  // ----- the keys of a bundle -----

  /** The writable keys among the first `m`. */
  function WritableKeys(tx: Transaction, m: nat): set<Pubkey>
    requires m <= |tx.keys|
  {
    set i | 0 <= i < m && IsWritable(i, |tx.keys|, tx.header) :: tx.keys[i]
  }

  /** The programs called by the first `m` instructions, as far as they are static keys. */
  function CalledPrograms(tx: Transaction, m: nat): set<Pubkey>
    requires m <= |tx.instructions|
  {
    set i | 0 <= i < m && tx.instructions[i].programIdIndex < |tx.keys| :: tx.keys[tx.instructions[i].programIdIndex]
  }

  function AllWritable(tx: Transaction): set<Pubkey> { WritableKeys(tx, |tx.keys|) }

  function AllCalled(tx: Transaction): set<Pubkey> { CalledPrograms(tx, |tx.instructions|) }

  lemma CalledNext(tx: Transaction, i: nat)
    requires i < |tx.instructions|
    ensures var program := Get(tx.keys, tx.instructions[i].programIdIndex);
      CalledPrograms(tx, i + 1) == CalledPrograms(tx, i) + if program.Some? then {program.value} else {}
  {
  }

  type Decoder = Packet -> Option<Transaction>

  function WrittenBy(packets: seq<Packet>, decode: Decoder): set<Pubkey> {
    if packets == [] then {}
    else
      var tx := decode(packets[|packets| - 1]);
      WrittenBy(packets[..|packets| - 1], decode) + if tx.Some? then AllWritable(tx.value) else {}
  }

  function CalledBy(packets: seq<Packet>, decode: Decoder): set<Pubkey> {
    if packets == [] then {}
    else
      var tx := decode(packets[|packets| - 1]);
      CalledBy(packets[..|packets| - 1], decode) + if tx.Some? then AllCalled(tx.value) else {}
  }

  lemma PacketNext(packets: seq<Packet>, i: nat, decode: Decoder)
    requires i < |packets|
    ensures decode(packets[i]).None? ==>
      && WrittenBy(packets[..i + 1], decode) == WrittenBy(packets[..i], decode)
      && CalledBy(packets[..i + 1], decode) == CalledBy(packets[..i], decode)
    ensures decode(packets[i]).Some? ==>
      && WrittenBy(packets[..i + 1], decode) == WrittenBy(packets[..i], decode) + AllWritable(decode(packets[i]).value)
      && CalledBy(packets[..i + 1], decode) == CalledBy(packets[..i], decode) + AllCalled(decode(packets[i]).value)
  {
    assert packets[..i + 1][..i] == packets[..i];
  }

  /** Position `i` of the static keys, which a well-formed header makes writable. */
  ghost predicate WritesAt(tx: Transaction, i: nat, k: Pubkey) {
    && i < |tx.keys| && tx.keys[i] == k
    && (i < tx.header.numSigned - tx.header.numReadonlySigned
        || tx.header.numSigned <= i < |tx.keys| - tx.header.numReadonlyUnsigned)
  }

  /** A transaction writes exactly the keys at the two writable ranges. */
  lemma WritableExactly(tx: Transaction, k: Pubkey)
    requires WellFormed(|tx.keys|, tx.header)
    ensures k in AllWritable(tx) <==> exists i: nat :: WritesAt(tx, i, k)
  {
    if k in AllWritable(tx) {
      var i: nat :| i < |tx.keys| && IsWritable(i, |tx.keys|, tx.header) && tx.keys[i] == k;
      assert WritesAt(tx, i, k);
    }
    if i: nat :| WritesAt(tx, i, k) {
      assert IsWritable(i, |tx.keys|, tx.header);
    }
  }

  /** A transaction calls exactly the static keys its instructions name as programs. */
  lemma CalledExactly(tx: Transaction, k: Pubkey)
    ensures k in AllCalled(tx)
       <==> exists ix :: ix in tx.instructions && ix.programIdIndex < |tx.keys| && tx.keys[ix.programIdIndex] == k
  {
    if ix :| ix in tx.instructions && ix.programIdIndex < |tx.keys| && tx.keys[ix.programIdIndex] == k {
      var i :| 0 <= i < |tx.instructions| && tx.instructions[i] == ix;
      assert tx.keys[tx.instructions[i].programIdIndex] in AllCalled(tx);
    }
  }

  /** A bundle touches what its decodable packets touch. */
  lemma {:induction false} TouchedExactly(packets: seq<Packet>, decode: Decoder, k: Pubkey)
    ensures k in WrittenBy(packets, decode)
       <==> exists p :: p in packets && decode(p).Some? && k in AllWritable(decode(p).value)
    ensures k in CalledBy(packets, decode)
       <==> exists p :: p in packets && decode(p).Some? && k in AllCalled(decode(p).value)
  {
    if packets != [] {
      TouchedExactly(packets[..|packets| - 1], decode, k);
      InitLast(packets);
      assert packets[|packets| - 1] in packets;
    }
  }

  // ----- the registry -----

  function Stamp(m: Seen, keys: set<Pubkey>, now: nat): Seen {
    map k | k in m.Keys + keys :: if k in keys then now else m[k]
  }

  predicate Young(stamp: nat, ttl: nat, now: nat) { SatSub(now, stamp) < ttl }

  function PruneSeen(m: Seen, ttl: nat, now: nat): Seen {
    map k | k in m && Young(m[k], ttl, now) :: m[k]
  }

  function Collect(m: Seen, ttl: nat, now: nat): set<Pubkey> {
    set k | k in m && Young(m[k], ttl, now)
  }

  class InterestRegistry {
    var accounts: Seen
    var programs: Seen
    const ttl: nat
    const decode: Decoder

    constructor (ttl: nat, decode: Decoder)
      ensures accounts == map[] && programs == map[] && this.ttl == ttl && this.decode == decode
    {
      this.accounts, this.programs, this.ttl, this.decode := map[], map[], ttl, decode;
    }

    /** Record the writable keys and the programs of a bundle; skip what does not decode. */
    method ObserveBundle(bundle: BundleUuid, now: nat)
      modifies this
      ensures accounts == Stamp(old(accounts), WrittenBy(bundle.Packets(), decode), now)
      ensures programs == Stamp(old(programs), CalledBy(bundle.Packets(), decode), now)
    {
      var packets := bundle.Packets();
      StampNothing(accounts, now);
      StampNothing(programs, now);
      for i := 0 to |packets|
        invariant accounts == Stamp(old(accounts), WrittenBy(packets[..i], decode), now)
        invariant programs == Stamp(old(programs), CalledBy(packets[..i], decode), now)
      {
        PacketNext(packets, i, decode);
        var tx := decode(packets[i]);
        if tx.None? {
          continue;
        }
        ObserveTransaction(tx.value, now);
        StampTwice(old(accounts), WrittenBy(packets[..i], decode), AllWritable(tx.value), now);
        StampTwice(old(programs), CalledBy(packets[..i], decode), AllCalled(tx.value), now);
      }
      assert packets[..|packets|] == packets;
    }

    method ObserveTransaction(tx: Transaction, now: nat)
      modifies this
      ensures accounts == Stamp(old(accounts), AllWritable(tx), now)
      ensures programs == Stamp(old(programs), AllCalled(tx), now)
    {
      StampWritable(tx, now);
      StampCalled(tx, now);
    }

    method StampWritable(tx: Transaction, now: nat)
      modifies this`accounts
      ensures accounts == Stamp(old(accounts), AllWritable(tx), now)
    {
      for i := 0 to |tx.keys|
        invariant accounts == Stamp(old(accounts), WritableKeys(tx, i), now)
      {
        if IsWritable(i, |tx.keys|, tx.header) {
          assert WritableKeys(tx, i + 1) == WritableKeys(tx, i) + {tx.keys[i]};
          StampOne(old(accounts), WritableKeys(tx, i), tx.keys[i], now);
          accounts := accounts[tx.keys[i] := now];
        } else {
          assert WritableKeys(tx, i + 1) == WritableKeys(tx, i);
        }
      }
    }

    method StampCalled(tx: Transaction, now: nat)
      modifies this`programs
      ensures programs == Stamp(old(programs), AllCalled(tx), now)
    {
      for i := 0 to |tx.instructions|
        invariant programs == Stamp(old(programs), CalledPrograms(tx, i), now)
      {
        CalledNext(tx, i);
        var program := Get(tx.keys, tx.instructions[i].programIdIndex);
        if program.Some? {
          StampOne(old(programs), CalledPrograms(tx, i), program.value, now);
          programs := programs[program.value := now];
        }
      }
    }

    method Prune(now: nat)
      modifies this
      ensures accounts == PruneSeen(old(accounts), ttl, now)
      ensures programs == PruneSeen(old(programs), ttl, now)
    {
      accounts := map k | k in accounts && Young(accounts[k], ttl, now) :: accounts[k];
      programs := map k | k in programs && Young(programs[k], ttl, now) :: programs[k];
    }

    /** The order of the reported keys is that of a hash map; only the set is modelled. */
    method AccountsOfInterest(now: nat) returns (keys: set<Pubkey>)
      ensures keys == Collect(accounts, ttl, now)
      ensures forall k :: k in keys <==> k in accounts && SatSub(now, accounts[k]) < ttl
    {
      keys := set k | k in accounts && Young(accounts[k], ttl, now);
    }

    method ProgramsOfInterest(now: nat) returns (keys: set<Pubkey>)
      ensures keys == Collect(programs, ttl, now)
      ensures forall k :: k in keys <==> k in programs && SatSub(now, programs[k]) < ttl
    {
      keys := set k | k in programs && Young(programs[k], ttl, now);
    }
  }

  lemma StampNothing(m: Seen, now: nat)
    ensures Stamp(m, {}, now) == m
  {
  }

  lemma StampOne(m: Seen, keys: set<Pubkey>, k: Pubkey, now: nat)
    ensures Stamp(m, keys, now)[k := now] == Stamp(m, keys + {k}, now)
  {
  }

  lemma StampTwice(m: Seen, a: set<Pubkey>, b: set<Pubkey>, now: nat)
    ensures Stamp(Stamp(m, a, now), b, now) == Stamp(m, a + b, now)
  {
  }

  // ----- the registry against the full log -----

  /** What reaches one of the two maps, in the order in which its lock is taken. */
  datatype Event = Observe(keys: set<Pubkey>, stamp: nat) | Prune(at: nat)

  function Apply(m: Seen, e: Event, ttl: nat): Seen {
    match e
    case Observe(keys, stamp) => Stamp(m, keys, stamp)
    case Prune(at) => PruneSeen(m, ttl, at)
  }

  function Run(events: seq<Event>, ttl: nat): Seen {
    if events == [] then map[] else Apply(Run(events[..|events| - 1], ttl), events[|events| - 1], ttl)
  }

  predicate Observes(e: Event, k: Pubkey) { e.Observe? && k in e.keys }

  /** Some observation of `k` in the log is younger than the time to live. */
  ghost predicate RecentlyObserved(events: seq<Event>, k: Pubkey, ttl: nat, now: nat) {
    exists i :: 0 <= i < |events| && Observes(events[i], k) && SatSub(now, events[i].stamp) < ttl
  }

  /** The observation of `k` that was applied last. */
  ghost predicate LastObservation(events: seq<Event>, k: Pubkey, i: int) {
    && 0 <= i < |events| && Observes(events[i], k)
    && forall j :: i < j < |events| ==> !Observes(events[j], k)
  }

  /** Every prune after position `i` finds that observation young. */
  ghost predicate Spared(events: seq<Event>, i: int, ttl: nat)
    requires 0 <= i < |events| && events[i].Observe?
  {
    forall j :: i < j < |events| && events[j].Prune? ==> Young(events[i].stamp, ttl, events[j].at)
  }

  /** Whatever clocks the calls read: a key is held with stamp `s` if and only if its last
      observation carries `s` and every later prune finds it young. */
  lemma {:induction false} HeldExactly(events: seq<Event>, ttl: nat, k: Pubkey, s: nat)
    ensures k in Run(events, ttl) && Run(events, ttl)[k] == s
       <==> exists i :: LastObservation(events, k, i) && events[i].stamp == s && Spared(events, i, ttl)
  {
    if events != [] {
      var init, e := events[..|events| - 1], events[|events| - 1];
      HeldExactly(init, ttl, k, s);
      if Observes(e, k) {
        assert LastObservation(events, k, |init|) && Spared(events, |init|, ttl);
      } else {
        HeldBefore(events, k, s, ttl);
      }
    }
  }

  /** One more event that does not observe `k`. */
  lemma HeldBefore(events: seq<Event>, k: Pubkey, s: nat, ttl: nat)
    requires events != [] && !Observes(events[|events| - 1], k)
    ensures var init, e := events[..|events| - 1], events[|events| - 1];
      (exists i :: LastObservation(events, k, i) && events[i].stamp == s && Spared(events, i, ttl))
      <==> && (exists i :: LastObservation(init, k, i) && init[i].stamp == s && Spared(init, i, ttl))
           && (e.Prune? ==> Young(s, ttl, e.at))
  {
    var init, e := events[..|events| - 1], events[|events| - 1];
    if i :| LastObservation(events, k, i) && events[i].stamp == s && Spared(events, i, ttl) {
      assert LastObservation(init, k, i) && init[i].stamp == s && Spared(init, i, ttl);
    }
    if i :| LastObservation(init, k, i) && init[i].stamp == s && Spared(init, i, ttl) {
      assert LastObservation(events, k, i);
      assert e.Prune? && Young(s, ttl, e.at) ==> Spared(events, i, ttl);
      assert !e.Prune? ==> Spared(events, i, ttl);
    }
  }

  lemma LastIsOne(events: seq<Event>, k: Pubkey, i: int, j: int)
    requires LastObservation(events, k, i) && LastObservation(events, k, j)
    ensures i == j
  {
  }

  lemma {:induction false} HasLast(events: seq<Event>, k: Pubkey, i: nat) returns (j: nat)
    requires i < |events| && Observes(events[i], k)
    ensures i <= j && LastObservation(events, k, j)
  {
    if Observes(events[|events| - 1], k) {
      j := |events| - 1;
    } else {
      j := HasLast(events[..|events| - 1], k, i);
    }
  }

  /** For every log, with no assumption on clocks: a key is reported if and only if its
      last observation is young and every later prune found it young. */
  lemma ReportedIffLastYoung(events: seq<Event>, ttl: nat, now: nat, k: Pubkey)
    ensures k in Collect(Run(events, ttl), ttl, now)
       <==> exists i :: LastObservation(events, k, i) && Young(events[i].stamp, ttl, now) && Spared(events, i, ttl)
  {
    if k in Run(events, ttl) {
      HeldExactly(events, ttl, k, Run(events, ttl)[k]);
    }
    if i :| LastObservation(events, k, i) && Young(events[i].stamp, ttl, now) && Spared(events, i, ttl) {
      HeldExactly(events, ttl, k, events[i].stamp);
    }
  }

  /** The half that holds for every interleaving: stamps and prunes may be applied in any
      order, under any clocks. */
  lemma ReportedIsRecent(events: seq<Event>, ttl: nat, now: nat, k: Pubkey)
    requires k in Collect(Run(events, ttl), ttl, now)
    ensures RecentlyObserved(events, k, ttl, now)
  {
    ReportedIffLastYoung(events, ttl, now, k);
  }

  // ----- serialised calls -----

  /** Observations are applied in the order of their stamps. */
  ghost predicate StampsInOrder(events: seq<Event>) {
    forall i, j :: 0 <= i < j < |events| && events[i].Observe? && events[j].Observe? ==>
      events[i].stamp <= events[j].stamp
  }

  /** No prune has looked at a later clock than `now`. */
  ghost predicate PrunesBefore(events: seq<Event>, now: nat) {
    forall i :: 0 <= i < |events| && events[i].Prune? ==> events[i].at <= now
  }

  /** With calls serialised under a monotone clock, for any placement of prunes, the report
      is exactly the keys with a young observation in the full log. */
  lemma ReportIsExact(events: seq<Event>, ttl: nat, now: nat, k: Pubkey)
    requires StampsInOrder(events) && PrunesBefore(events, now)
    ensures k in Collect(Run(events, ttl), ttl, now) <==> RecentlyObserved(events, k, ttl, now)
  {
    ReportedIffLastYoung(events, ttl, now, k);
    if i :| 0 <= i < |events| && Observes(events[i], k) && Young(events[i].stamp, ttl, now) {
      var j := HasLast(events, k, i);
      assert i < j ==> events[i].stamp <= events[j].stamp;
      assert Young(events[j].stamp, ttl, now) && Spared(events, j, ttl);
    }
  }

  /** For every log: the report agrees with the full log on a key if and only if, whenever
      some observation of it is young, the one applied last is young too and no later prune
      found it old. The two lemmas below show that both can fail. */
  lemma ReportMatchesLog(events: seq<Event>, ttl: nat, now: nat, k: Pubkey)
    ensures (k in Collect(Run(events, ttl), ttl, now) <==> RecentlyObserved(events, k, ttl, now))
       <==> (RecentlyObserved(events, k, ttl, now) ==>
               forall i :: LastObservation(events, k, i) ==> Young(events[i].stamp, ttl, now) && Spared(events, i, ttl))
  {
    ReportedIffLastYoung(events, ttl, now, k);
    forall i, j | LastObservation(events, k, i) && LastObservation(events, k, j) ensures i == j {
      LastIsOne(events, k, i, j);
    }
    if i :| 0 <= i < |events| && Observes(events[i], k) && Young(events[i].stamp, ttl, now) {
      var j := HasLast(events, k, i);
    }
  }

  /** The clock is read before the locks are taken. When two calls overlap so that the
      older stamp is applied last, a recently observed key is not reported. */
  lemma OverlapHidesKey(k: Pubkey)
    ensures var events := [Observe({k}, 10), Observe({k}, 0)];
      PrunesBefore(events, 12) && RecentlyObserved(events, k, 5, 12) && k !in Collect(Run(events, 5), 5, 12)
  {
    var events := [Observe({k}, 10), Observe({k}, 0)];
    ReportedIffLastYoung(events, 5, 12, k);
    assert Observes(events[0], k) && Young(events[0].stamp, 5, 12);
    assert LastObservation(events, k, 1);
  }

  /** Nor when a reporter reads its clock, and a pruner that reads a later clock takes the
      lock first: the stamps are in order, the observation is young, the key is gone. */
  lemma EarlyReaderMissesKey(k: Pubkey)
    ensures var events := [Observe({k}, 10), Prune(15)];
      StampsInOrder(events) && RecentlyObserved(events, k, 5, 14) && k !in Collect(Run(events, 5), 5, 14)
  {
    var events := [Observe({k}, 10), Prune(15)];
    ReportedIffLastYoung(events, 5, 14, k);
    assert Observes(events[0], k) && Young(events[0].stamp, 5, 14);
    assert LastObservation(events, k, 0) && events[1].Prune? && !Young(10, 5, 15);
  }

  // ----- prunes -----

  function ObservationTest(): Event -> bool { (e: Event) => e.Observe? }

  /** The stamp of the last observation; prunes do not count. */
  function LastStamp(events: seq<Event>, k: Pubkey): Option<nat> {
    if events == [] then None
    else if Observes(events[|events| - 1], k) then Some(events[|events| - 1].stamp)
    else LastStamp(events[..|events| - 1], k)
  }

  lemma {:induction false} LastStampExactly(events: seq<Event>, k: Pubkey, s: nat)
    ensures LastStamp(events, k) == Some(s) <==> exists i :: LastObservation(events, k, i) && events[i].stamp == s
  {
    if events != [] {
      var init := events[..|events| - 1];
      LastStampExactly(init, k, s);
      if Observes(events[|init|], k) {
        assert LastObservation(events, k, |init|);
      } else {
        if i :| LastObservation(init, k, i) && init[i].stamp == s {
          assert LastObservation(events, k, i);
        }
        if i :| LastObservation(events, k, i) && events[i].stamp == s {
          assert LastObservation(init, k, i);
        }
      }
    }
  }

  lemma LastStampSnoc(events: seq<Event>, e: Event, k: Pubkey)
    ensures LastStamp(events + [e], k) == if Observes(e, k) then Some(e.stamp) else LastStamp(events, k)
  {
    assert (events + [e])[..|events|] == events;
  }

  lemma {:induction false} LastStampFilter(events: seq<Event>, k: Pubkey)
    ensures LastStamp(Filter(events, ObservationTest()), k) == LastStamp(events, k)
  {
    if events != [] {
      var init, e := events[..|events| - 1], events[|events| - 1];
      LastStampFilter(init, k);
      InitLast(events);
      FilterSnoc(init, e, ObservationTest());
      LastStampSnoc(init, e, k);
      LastStampSnoc(Filter(init, ObservationTest()), e, k);
    }
  }

  /** Without prunes, a key is reported exactly when its last observation is young. */
  lemma UnprunedReport(events: seq<Event>, ttl: nat, now: nat, k: Pubkey)
    ensures k in Collect(Run(Filter(events, ObservationTest()), ttl), ttl, now)
       <==> exists i :: LastObservation(events, k, i) && Young(events[i].stamp, ttl, now)
  {
    var obs := Filter(events, ObservationTest());
    forall i | 0 <= i < |obs| ensures obs[i].Observe? {
      FilterMember(events, ObservationTest(), obs[i]);
    }
    LastStampFilter(events, k);
    ReportedIffLastYoung(obs, ttl, now, k);
    if i :| LastObservation(obs, k, i) && Young(obs[i].stamp, ttl, now) && Spared(obs, i, ttl) {
      LastStampExactly(obs, k, obs[i].stamp);
      LastStampExactly(events, k, obs[i].stamp);
    }
    if i :| LastObservation(events, k, i) && Young(events[i].stamp, ttl, now) {
      LastStampExactly(events, k, events[i].stamp);
      LastStampExactly(obs, k, events[i].stamp);
      var j :| LastObservation(obs, k, j) && obs[j].stamp == events[i].stamp;
      assert Spared(obs, j, ttl);
    }
  }

  /** Erasing every prune from a log leaves the report of a key as it is, if and only if
      its last observation is old already or no later prune looked at a clock by which it
      was old. Prunes that read no later clock than the reporter are invisible. */
  lemma PrunesAreInvisible(events: seq<Event>, ttl: nat, now: nat, k: Pubkey)
    ensures var unpruned := Run(Filter(events, ObservationTest()), ttl);
      (k in Collect(Run(events, ttl), ttl, now) <==> k in Collect(unpruned, ttl, now))
      <==> forall i :: LastObservation(events, k, i) && Young(events[i].stamp, ttl, now) ==> Spared(events, i, ttl)
    ensures PrunesBefore(events, now) ==>
      forall i :: LastObservation(events, k, i) && Young(events[i].stamp, ttl, now) ==> Spared(events, i, ttl)
  {
    UnprunedReport(events, ttl, now, k);
    ReportedIffLastYoung(events, ttl, now, k);
    forall i, j | LastObservation(events, k, i) && LastObservation(events, k, j) ensures i == j {
      LastIsOne(events, k, i, j);
    }
  }
}
