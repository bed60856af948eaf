/** The leader cache: which validator identities lead a slot in the lookahead window.

    Answers of the RPC node are inputs. The entries of a schedule come in the iteration
    order of a hash map, so they are a sequence in arbitrary order. */
module Leaders {
  import opened Common

  datatype EpochInfo = EpochInfo(epoch: nat, slotIndex: u64, absoluteSlot: u64)

  /** One leader and its slots, relative to the start of the epoch. */
  datatype Entry = Entry(identity: string, relSlots: seq<u64>)

  datatype Reply = Failed | NoSchedule | Schedule(entries: seq<Entry>)

  /** One round of polling; `reply` is what the node answers if it is asked. */
  datatype Round = Round(info: Option<EpochInfo>, reply: Reply)

  datatype Cache = Cache(schedule: map<u64, string>, loaded: Option<nat>, currentSlot: u64, upcoming: set<string>)

  // ----- one round -----

  function AddSlots(m: map<u64, string>, base: u64, e: Entry, n: nat): map<u64, string>
    requires n <= |e.relSlots|
  {
    if n == 0 then m else AddSlots(m, base, e, n - 1)[WrapAdd(base, e.relSlots[n - 1]) := e.identity]
  }

  function AddEntries(base: u64, entries: seq<Entry>, n: nat): map<u64, string>
    requires n <= |entries|
  {
    if n == 0 then map[]
    else AddSlots(AddEntries(base, entries, n - 1), base, entries[n - 1], |entries[n - 1].relSlots|)
  }

  function WindowEnd(i: EpochInfo, lookahead: u64): u64 { SatAdd(i.absoluteSlot, lookahead) }

  function LeadersIn(schedule: map<u64, string>, first: u64, last: u64): set<string> {
    set s | s in schedule && first <= s <= last :: schedule[s]
  }

  predicate Reloads(c: Cache, r: Round) {
    r.info.Some? && c.loaded != Some(r.info.value.epoch) && r.reply.Schedule?
  }

  function PollRound(c: Cache, r: Round, lookahead: u64): Cache {
    if r.info.None? then c
    else
      var i := r.info.value;
      var base := SatSub(i.absoluteSlot, i.slotIndex);
      var schedule := if Reloads(c, r) then AddEntries(base, r.reply.entries, |r.reply.entries|) else c.schedule;
      Cache(schedule, if Reloads(c, r) then Some(i.epoch) else c.loaded, i.absoluteSlot,
            LeadersIn(schedule, i.absoluteSlot, WindowEnd(i, lookahead)))
  }

  class LeaderTracker {
    var schedule: map<u64, string>
    var loadedEpoch: Option<nat>
    var currentSlot: u64
    var upcoming: set<string>
    const lookahead: u64

    ghost function Value(): Cache
      reads this
    {
      Cache(schedule, loadedEpoch, currentSlot, upcoming)
    }

    constructor (lookahead: u64)
      ensures Value() == Cache(map[], None, 0, {}) && this.lookahead == lookahead
    {
      this.lookahead := lookahead;
      schedule, loadedEpoch, currentSlot, upcoming := map[], None, 0, {};
    }

    /** One iteration of the polling loop. */
    method Poll(info: Option<EpochInfo>, reply: Reply)
      modifies this
      ensures Value() == PollRound(old(Value()), Round(info, reply), lookahead)
    {
      if info.None? {
        return;
      }
      var absSlot := info.value.absoluteSlot;
      var epochStart := SatSub(absSlot, info.value.slotIndex);
      currentSlot := absSlot;
      if loadedEpoch != Some(info.value.epoch) {
        match reply {
          case Schedule(entries) =>
            Reload(epochStart, entries);
            loadedEpoch := Some(info.value.epoch);
          case NoSchedule =>
          case Failed =>
        }
      }
      var last := WindowEnd(info.value, lookahead);
      var next: int := absSlot;
      var found: set<string> := {};
      while next <= last
        invariant absSlot <= next && next - 1 <= last
        invariant found == set s | s in schedule && absSlot <= s < next :: schedule[s]
      {
        if next in schedule {
          found := found + {schedule[next]};
        }
        next := next + 1;
      }
      upcoming := found;
    }

    /** Forget the old schedule and index the new one by absolute slot. */
    method Reload(epochStart: u64, entries: seq<Entry>)
      modifies this`schedule
      ensures schedule == AddEntries(epochStart, entries, |entries|)
    {
      schedule := map[];
      for i := 0 to |entries|
        invariant schedule == AddEntries(epochStart, entries, i)
      {
        ghost var before := schedule;
        for k := 0 to |entries[i].relSlots|
          invariant schedule == AddSlots(before, epochStart, entries[i], k)
        {
          schedule := schedule[WrapAdd(epochStart, entries[i].relSlots[k]) := entries[i].identity];
        }
      }
    }

    method IsUpcomingLeader(identity: string) returns (b: bool)
      ensures b <==> identity in Value().upcoming
    {
      b := identity in upcoming;
    }
  }

  // ----- what the chain really does -----

  /** The true leader of every slot, and the first slot of every epoch. */
  datatype Chain = Chain(leader: nat -> string, start: nat -> nat) {
    ghost predicate InEpoch(slot: nat, e: nat) { start(e) <= slot < start(e + 1) }

    /** Epochs follow each other and every slot number fits in a `u64`. */
    ghost predicate Valid() {
      && (forall e: nat, f: nat :: e <= f ==> start(e) <= start(f))
      && (forall e: nat :: start(e) <= U64_MAX + 1)
    }

    ghost predicate InfoOk(i: EpochInfo) {
      i.absoluteSlot == start(i.epoch) + i.slotIndex && InEpoch(i.absoluteSlot, i.epoch)
    }

    /** The entry lists slots of the epoch that its identity leads. */
    ghost predicate EntryOk(x: Entry, e: nat) {
      forall r :: r in x.relSlots ==> InEpoch(start(e) + r, e) && leader(start(e) + r) == x.identity
    }

    /** Sound and complete for epoch `e`. */
    ghost predicate EntriesOk(entries: seq<Entry>, e: nat) {
      && (forall x :: x in entries ==> EntryOk(x, e))
      && (forall slot: nat :: InEpoch(slot, e) ==> exists x :: x in entries && Lists(x, slot, e))
    }

    ghost predicate Lists(x: Entry, slot: nat, e: nat) {
      slot - start(e) in x.relSlots
    }

    /** The node tells the truth, when it answers at all. */
    ghost predicate Truthful(r: Round) {
      r.info.Some? ==>
        InfoOk(r.info.value) && (r.reply.Schedule? ==> EntriesOk(r.reply.entries, r.info.value.epoch))
    }

    /** The cache indexes exactly the slots of the epoch it was loaded for, each under
        its true leader. */
    ghost predicate Faithful(schedule: map<u64, string>, loaded: Option<nat>) {
      && (forall s :: s in schedule <==> loaded.Some? && 0 <= s && InEpoch(s, loaded.value))
      && (forall s :: s in schedule ==> schedule[s] == leader(s))
    }

    /** Everybody who leads a slot from `first` to `last` that belongs to epoch `e`. */
    ghost function TrueLeaders(first: u64, last: u64, e: nat): set<string> {
      set s | first <= s <= last && InEpoch(s, e) :: leader(s)
    }
  }

  // ----- loading -----

  lemma {:induction false} AddSlotsFaithful(c: Chain, m: map<u64, string>, base: u64, x: Entry, n: nat, e: nat)
    requires c.Valid() && n <= |x.relSlots| && base == c.start(e) && c.EntryOk(x, e)
    ensures forall s :: s in AddSlots(m, base, x, n) <==> s in m || exists k :: 0 <= k < n && base + x.relSlots[k] == s
    ensures forall s :: s in AddSlots(m, base, x, n) ==>
      AddSlots(m, base, x, n)[s] == c.leader(s) || (s in m && AddSlots(m, base, x, n)[s] == m[s])
  {
    if n > 0 {
      AddSlotsFaithful(c, m, base, x, n - 1, e);
      var r := x.relSlots[n - 1];
      assert r in x.relSlots;
      assert c.start(e + 1) <= U64_MAX + 1;
      assert WrapAdd(base, r) == base + r;
    }
  }

  ghost predicate ListedBy(c: Chain, entries: seq<Entry>, n: nat, slot: nat, e: nat)
    requires n <= |entries|
  {
    exists k :: 0 <= k < n && c.Lists(entries[k], slot, e)
  }

  lemma ListsMeansIndex(c: Chain, x: Entry, slot: u64, e: nat)
    ensures c.Lists(x, slot, e) <==> exists k :: 0 <= k < |x.relSlots| && c.start(e) + x.relSlots[k] == slot
  {
    if c.Lists(x, slot, e) {
      var k :| 0 <= k < |x.relSlots| && x.relSlots[k] == slot - c.start(e);
      assert c.start(e) + x.relSlots[k] == slot;
    }
  }

  lemma {:induction false} AddEntriesFaithful(c: Chain, base: u64, entries: seq<Entry>, n: nat, e: nat)
    requires c.Valid() && n <= |entries| && base == c.start(e) && forall x :: x in entries ==> c.EntryOk(x, e)
    ensures forall s :: s in AddEntries(base, entries, n) <==> ListedBy(c, entries, n, s, e)
    ensures forall s :: s in AddEntries(base, entries, n) ==> AddEntries(base, entries, n)[s] == c.leader(s)
  {
    if n > 0 {
      AddEntriesFaithful(c, base, entries, n - 1, e);
      var x, m := entries[n - 1], AddEntries(base, entries, n - 1);
      assert x in entries;
      AddSlotsFaithful(c, m, base, x, |x.relSlots|, e);
      forall s: u64 ensures s in AddEntries(base, entries, n) <==> ListedBy(c, entries, n, s, e) {
        ListsMeansIndex(c, x, s, e);
        if ListedBy(c, entries, n - 1, s, e) {
          var k :| 0 <= k < n - 1 && c.Lists(entries[k], s, e);
        }
      }
    }
  }

  /** Whatever the order of a truthful reply, the reloaded schedule is the truth. */
  lemma LoadIsFaithful(c: Chain, base: u64, entries: seq<Entry>, e: nat)
    requires c.Valid() && base == c.start(e) && c.EntriesOk(entries, e)
    ensures c.Faithful(AddEntries(base, entries, |entries|), Some(e))
  {
    AddEntriesFaithful(c, base, entries, |entries|, e);
    var m := AddEntries(base, entries, |entries|);
    forall s: u64 ensures s in m <==> c.InEpoch(s, e) {
      if s in m {
        assert ListedBy(c, entries, |entries|, s, e);
        var k :| 0 <= k < |entries| && c.Lists(entries[k], s, e);
        assert entries[k] in entries;
      }
      if c.InEpoch(s, e) {
        var x :| x in entries && c.Lists(x, s, e);
        var k :| 0 <= k < |entries| && entries[k] == x;
        assert ListedBy(c, entries, |entries|, s, e);
      }
    }
  }

  // ----- every run -----

  function Run(rounds: seq<Round>, lookahead: u64): Cache {
    if rounds == [] then Cache(map[], None, 0, {})
    else PollRound(Run(rounds[..|rounds| - 1], lookahead), rounds[|rounds| - 1], lookahead)
  }

  /** The epoch loaded after a run: that of the last answered request for a schedule.
      A request is made when the node reports an epoch other than the loaded one. */
  function LoadedEpoch(rounds: seq<Round>): Option<nat> {
    if rounds == [] then None
    else
      var before, r := LoadedEpoch(rounds[..|rounds| - 1]), rounds[|rounds| - 1];
      if r.info.Some? && before != Some(r.info.value.epoch) && r.reply.Schedule? then Some(r.info.value.epoch)
      else before
  }

  /** The last epoch info that arrived. */
  function LastInfo(rounds: seq<Round>): Option<EpochInfo> {
    if rounds == [] then None
    else if rounds[|rounds| - 1].info.Some? then rounds[|rounds| - 1].info
    else LastInfo(rounds[..|rounds| - 1])
  }

  ghost predicate AllTruthful(c: Chain, rounds: seq<Round>) {
    forall r :: r in rounds ==> c.Truthful(r)
  }

  lemma {:induction false} RunFaithful(c: Chain, rounds: seq<Round>, lookahead: u64)
    requires c.Valid() && AllTruthful(c, rounds)
    ensures var cache := Run(rounds, lookahead);
      && cache.loaded == LoadedEpoch(rounds)
      && c.Faithful(cache.schedule, cache.loaded)
  {
    if rounds != [] {
      var init, r := rounds[..|rounds| - 1], rounds[|rounds| - 1];
      RunFaithful(c, init, lookahead);
      assert c.Truthful(r);
      if Reloads(Run(init, lookahead), r) {
        LoadIsFaithful(c, SatSub(r.info.value.absoluteSlot, r.info.value.slotIndex), r.reply.entries,
                       r.info.value.epoch);
      }
    }
  }

  lemma FaithfulWindow(c: Chain, schedule: map<u64, string>, loaded: Option<nat>, first: u64, last: u64)
    requires c.Faithful(schedule, loaded)
    ensures LeadersIn(schedule, first, last) == if loaded.None? then {} else c.TrueLeaders(first, last, loaded.value)
  {
    if loaded.Some? {
      forall s: u64 | first <= s <= last && c.InEpoch(s, loaded.value)
        ensures c.leader(s) in LeadersIn(schedule, first, last)
      {
        assert s in schedule;
      }
    }
  }

  /** Over every run, with failed requests, missing schedules and epoch changes in any
      order: the cache names the true leader of each slot it holds, and the published set
      is exactly the leaders of the last polled window within the loaded epoch. */
  lemma {:induction false} CacheSoundness(c: Chain, rounds: seq<Round>, lookahead: u64)
    requires c.Valid() && AllTruthful(c, rounds)
    ensures var cache := Run(rounds, lookahead);
      && (forall s :: s in cache.schedule ==> cache.schedule[s] == c.leader(s))
      && cache.currentSlot == (if LastInfo(rounds).None? then 0 else LastInfo(rounds).value.absoluteSlot)
      && cache.upcoming ==
           if LastInfo(rounds).None? || LoadedEpoch(rounds).None? then {}
           else c.TrueLeaders(LastInfo(rounds).value.absoluteSlot, WindowEnd(LastInfo(rounds).value, lookahead),
                              LoadedEpoch(rounds).value)
  {
    RunFaithful(c, rounds, lookahead);
    if rounds != [] {
      var init, r := rounds[..|rounds| - 1], rounds[|rounds| - 1];
      if r.info.None? {
        CacheSoundness(c, init, lookahead);
      } else {
        var cache := Run(rounds, lookahead);
        FaithfulWindow(c, cache.schedule, cache.loaded, r.info.value.absoluteSlot, WindowEnd(r.info.value, lookahead));
      }
    }
  }

  /** Over every run: an identity is upcoming if and only if it leads some slot from the
      last polled one to `lookahead` slots later that lies in the loaded epoch. */
  lemma UpcomingExactly(c: Chain, rounds: seq<Round>, lookahead: u64, v: string)
    requires c.Valid() && AllTruthful(c, rounds) && LastInfo(rounds).Some? && LoadedEpoch(rounds).Some?
    ensures var now, e := LastInfo(rounds).value.absoluteSlot, LoadedEpoch(rounds).value;
      v in Run(rounds, lookahead).upcoming
      <==> exists s: nat :: LeadsAt(c, s, v) && now <= s <= now + lookahead && c.start(e) <= s < c.start(e + 1)
  {
    CacheSoundness(c, rounds, lookahead);
    var i, e := LastInfo(rounds).value, LoadedEpoch(rounds).value;
    var leaders := c.TrueLeaders(i.absoluteSlot, WindowEnd(i, lookahead), e);
    if v in leaders {
      var s: u64 :| i.absoluteSlot <= s <= WindowEnd(i, lookahead) && c.InEpoch(s, e) && c.leader(s) == v;
      assert LeadsAt(c, s, v);
    }
    if s: nat :| && LeadsAt(c, s, v) && i.absoluteSlot <= s <= i.absoluteSlot + lookahead
                 && c.start(e) <= s < c.start(e + 1) {
      assert c.start(e + 1) <= U64_MAX + 1;
      assert c.InEpoch(s, e) && s <= WindowEnd(i, lookahead);
      assert c.leader(s) in leaders;
    }
  }

  ghost predicate LeadsAt(c: Chain, s: nat, v: string) { c.leader(s) == v }

  /** A schedule is loaded once per epoch: as long as the node reports the loaded epoch, the
      index is left alone, whatever the node would answer. */
  lemma LoadedOnce(c: Cache, r: Round, lookahead: u64)
    requires r.info.Some? && c.loaded == Some(r.info.value.epoch)
    ensures PollRound(c, r, lookahead).schedule == c.schedule && PollRound(c, r, lookahead).loaded == c.loaded
  {
  }

  // ----- completeness -----

  /** The node never reports an epoch earlier than one it reported before. */
  ghost predicate EpochsInOrder(rounds: seq<Round>) {
    forall i, j :: 0 <= i < j < |rounds| && rounds[i].info.Some? && rounds[j].info.Some? ==>
      rounds[i].info.value.epoch <= rounds[j].info.value.epoch
  }

  lemma {:induction false} LoadedWasReported(rounds: seq<Round>) returns (i: nat)
    requires LoadedEpoch(rounds).Some?
    ensures i < |rounds| && rounds[i].info.Some? && LoadedEpoch(rounds) == Some(rounds[i].info.value.epoch)
  {
    var init := rounds[..|rounds| - 1];
    if LoadedEpoch(rounds) == LoadedEpoch(init) {
      i := LoadedWasReported(init);
    } else {
      i := |init|;
    }
  }

  lemma {:induction false} LastInfoWasReported(rounds: seq<Round>) returns (j: nat)
    requires LastInfo(rounds).Some?
    ensures j < |rounds| && rounds[j].info == LastInfo(rounds)
    ensures forall k :: j < k < |rounds| ==> rounds[k].info.None?
  {
    var init := rounds[..|rounds| - 1];
    if rounds[|init|].info.Some? {
      j := |init|;
    } else {
      j := LastInfoWasReported(init);
    }
  }

  lemma LoadedIsNotAhead(rounds: seq<Round>)
    requires EpochsInOrder(rounds) && LoadedEpoch(rounds).Some? && LastInfo(rounds).Some?
    ensures LoadedEpoch(rounds).value <= LastInfo(rounds).value.epoch
  {
    var i := LoadedWasReported(rounds);
    var j := LastInfoWasReported(rounds);
  }

  lemma LastInfoIsTrue(c: Chain, rounds: seq<Round>)
    requires AllTruthful(c, rounds) && LastInfo(rounds).Some?
    ensures c.InEpoch(LastInfo(rounds).value.absoluteSlot, LastInfo(rounds).value.epoch)
  {
    var j := LastInfoWasReported(rounds);
    assert rounds[j] in rounds;
  }

  /** Nobody leads a slot of the window in an epoch that is over. */
  lemma PastIsEmpty(c: Chain, i: EpochInfo, last: u64, past: nat)
    requires c.Valid() && c.InEpoch(i.absoluteSlot, i.epoch) && past < i.epoch
    ensures c.TrueLeaders(i.absoluteSlot, last, past) == {}
  {
    assert c.start(past + 1) <= c.start(i.epoch);
  }

  /** The published set holds all the leaders of the window within the current epoch if
      and only if that epoch's schedule is loaded, or a later one is and its part of the
      window happens to have the same leaders. With no schedule, or an earlier one, the
      set is empty: it is never stale. */
  lemma CompleteIffLoaded(c: Chain, rounds: seq<Round>, lookahead: u64)
    requires c.Valid() && AllTruthful(c, rounds) && LastInfo(rounds).Some?
    ensures var i, upcoming, loaded := LastInfo(rounds).value, Run(rounds, lookahead).upcoming, LoadedEpoch(rounds);
      var last := WindowEnd(i, lookahead);
      var leaders := c.TrueLeaders(i.absoluteSlot, last, i.epoch);
      && (upcoming == leaders
          <==> || loaded == Some(i.epoch)
               || (loaded.Some? && loaded.value > i.epoch
                   && c.TrueLeaders(i.absoluteSlot, last, loaded.value) == leaders))
      && (loaded.None? || loaded.value < i.epoch ==> upcoming == {})
  {
    CacheSoundness(c, rounds, lookahead);
    LastInfoIsTrue(c, rounds);
    var i, loaded := LastInfo(rounds).value, LoadedEpoch(rounds);
    var last := WindowEnd(i, lookahead);
    assert c.leader(i.absoluteSlot) in c.TrueLeaders(i.absoluteSlot, last, i.epoch);
    if loaded.Some? && loaded.value < i.epoch {
      PastIsEmpty(c, i, last, loaded.value);
    }
  }

  /** When the node never goes back to an earlier epoch: complete if and only if loaded,
      and otherwise empty. */
  lemma CompleteInOrder(c: Chain, rounds: seq<Round>, lookahead: u64)
    requires c.Valid() && AllTruthful(c, rounds) && EpochsInOrder(rounds) && LastInfo(rounds).Some?
    ensures var i, upcoming := LastInfo(rounds).value, Run(rounds, lookahead).upcoming;
      && (upcoming == c.TrueLeaders(i.absoluteSlot, WindowEnd(i, lookahead), i.epoch)
          <==> LoadedEpoch(rounds) == Some(i.epoch))
      && (upcoming == {} <==> LoadedEpoch(rounds) != Some(i.epoch))
  {
    CompleteIffLoaded(c, rounds, lookahead);
    LastInfoIsTrue(c, rounds);
    var i := LastInfo(rounds).value;
    assert c.leader(i.absoluteSlot) in c.TrueLeaders(i.absoluteSlot, WindowEnd(i, lookahead), i.epoch);
    if LoadedEpoch(rounds).Some? {
      LoadedIsNotAhead(rounds);
    }
  }

  /** The order matters: a node that goes back one epoch, and then fails to deliver the
      schedule, leaves the later schedule loaded. If one validator leads throughout, the
      set is complete all the same. */
  lemma BackwardsCanBeComplete(c: Chain, later: Round, earlier: Round, v: string)
    requires c.Valid() && AllTruthful(c, [later, earlier])
    requires later.info.Some? && later.reply.Schedule? && earlier.info.Some? && !earlier.reply.Schedule?
    requires earlier.info.value.epoch + 1 == later.info.value.epoch
    requires earlier.info.value.absoluteSlot + 1 == c.start(later.info.value.epoch)
    requires forall s: nat :: c.leader(s) == v
    ensures LoadedEpoch([later, earlier]) == Some(later.info.value.epoch)
    ensures Run([later, earlier], 1).upcoming == {v}
         == c.TrueLeaders(earlier.info.value.absoluteSlot, WindowEnd(earlier.info.value, 1), earlier.info.value.epoch)
  {
    var rounds := [later, earlier];
    assert rounds[..1] == [later] && [later][..0] == [];
    assert LoadedEpoch([later]) == Some(later.info.value.epoch);
    CacheSoundness(c, rounds, 1);
    assert later in rounds && earlier in rounds;
    var i, e := earlier.info.value, later.info.value.epoch;
    assert c.InEpoch(i.absoluteSlot, i.epoch) && c.InEpoch(i.absoluteSlot + 1, e);
    assert c.leader(i.absoluteSlot) in c.TrueLeaders(i.absoluteSlot, WindowEnd(i, 1), i.epoch);
    assert c.leader(i.absoluteSlot + 1) in c.TrueLeaders(i.absoluteSlot, WindowEnd(i, 1), e);
  }
}
