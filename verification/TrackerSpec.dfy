/** What one poll of the on-chain tracker decides. */
module TrackerSpec {
  import opened Common
  import opened Bundles
  import opened StableSort

  const MAX_SIGS_PER_CALL: nat := 256

  /** A 64-byte signature, read as a big-endian number: byte order is numeric order. */
  type Signature = nat

  datatype Level = AtProcessed | AtConfirmed | AtFinalized

  /** What `getSignatureStatuses` says about one signature it knows. */
  datatype Status = Status(level: Option<Level>, slot: u64)

  datatype Tracked = Tracked(uuid: string, signatures: seq<Signature>, since: nat, processedEmitted: bool)

  /** Everything a poll judges by: the statuses it was told, the time, the deadline. */
  datatype Evidence = Evidence(known: map<Signature, Status>, now: nat, deadline: nat)

  // ----- the batch -----

  function AllSignatures(pending: seq<Tracked>): seq<Signature> {
    if pending == [] then [] else AllSignatures(pending[..|pending| - 1]) + pending[|pending| - 1].signatures
  }

  function Ascending(): nat -> real { (n: nat) => -(n as real) }

  /** `Vec::dedup`: drop an element that equals its predecessor. */
  function Dedup(s: seq<nat>): seq<nat> {
    if |s| <= 1 then s
    else if s[|s| - 1] == s[|s| - 2] then Dedup(s[..|s| - 1])
    else Dedup(s[..|s| - 1]) + [s[|s| - 1]]
  }

  function Truncate(s: seq<nat>, n: nat): seq<nat> {
    if |s| <= n then s else s[..n]
  }

  function Batch(pending: seq<Tracked>): seq<Signature> {
    Truncate(Dedup(Sort(AllSignatures(pending), Ascending())), MAX_SIGS_PER_CALL)
  }

  ghost predicate StrictlyAscending(s: seq<nat>) {
    forall i, j :: 0 <= i < j < |s| ==> s[i] < s[j]
  }

  ghost predicate WeaklyAscending(s: seq<nat>) {
    forall i, j :: 0 <= i < j < |s| ==> s[i] <= s[j]
  }

  /** `d` lists the elements of `s`, each once, and ends where `s` ends. */
  ghost predicate Deduped(d: seq<nat>, s: seq<nat>) {
    && StrictlyAscending(d) && (forall x :: x in d <==> x in s)
    && (s != [] ==> d != [] && d[|d| - 1] == s[|s| - 1])
  }

  lemma {:induction false} DedupFacts(s: seq<nat>)
    requires WeaklyAscending(s)
    ensures Deduped(Dedup(s), s)
  {
    if |s| > 1 {
      var init, last := s[..|s| - 1], s[|s| - 1];
      DedupFacts(init);
      assert init[|init| - 1] == s[|s| - 2] <= last;
      DedupedSnoc(Dedup(init), init, last);
      InitLast(s);
    }
  }

  lemma DedupedSnoc(d: seq<nat>, s: seq<nat>, x: nat)
    requires Deduped(d, s) && s != [] && s[|s| - 1] <= x
    ensures Deduped(if s[|s| - 1] == x then d else d + [x], s + [x])
  {
    assert x in s + [x] && forall y :: y in s + [x] <==> y in s || y == x;
    if s[|s| - 1] == x {
      assert x in s;
    } else {
      assert forall y :: y in d + [x] <==> y in d || y == x;
      assert forall i :: 0 <= i < |d| ==> d[i] <= d[|d| - 1];
    }
  }

  lemma {:induction false} DedupStrict(s: seq<nat>)
    requires StrictlyAscending(s)
    ensures Dedup(s) == s
  {
    if |s| > 1 {
      DedupStrict(s[..|s| - 1]);
    }
  }

  /** Sorting and deduplicating the removal indices changes nothing. */
  lemma SortDedupStrict(s: seq<nat>)
    requires StrictlyAscending(s)
    ensures Dedup(Sort(s, Ascending())) == s
  {
    SortOfSorted(s, Ascending());
    DedupStrict(s);
  }

  lemma {:induction false} AllSignaturesMember(pending: seq<Tracked>, x: Signature)
    ensures x in AllSignatures(pending) <==> exists t :: t in pending && x in t.signatures
  {
    if pending != [] {
      var init, last := pending[..|pending| - 1], pending[|pending| - 1];
      AllSignaturesMember(init, x);
      InitLast(pending);
      if x in last.signatures {
        assert last in pending;
      }
    }
  }

  ghost function DistinctSignatures(pending: seq<Tracked>): set<Signature> {
    set x | x in AllSignatures(pending)
  }

  lemma DedupedSignatures(pending: seq<Tracked>)
    ensures var d := Dedup(Sort(AllSignatures(pending), Ascending()));
      StrictlyAscending(d) && forall x :: x in d <==> x in AllSignatures(pending)
  {
    var all := AllSignatures(pending);
    var sorted := Sort(all, Ascending());
    SortFacts(all, Ascending());
    forall i, j | 0 <= i < j < |sorted| ensures sorted[i] <= sorted[j] {
      assert Ascending()(sorted[i]) >= Ascending()(sorted[j]);
    }
    DedupFacts(sorted);
    forall x ensures x in sorted <==> x in all {
      SortMember(all, Ascending(), x);
    }
  }

  ghost function Elements(s: seq<nat>): set<nat> {
    set x | x in s
  }

  lemma {:induction false} StrictCount(s: seq<nat>)
    requires StrictlyAscending(s)
    ensures |Elements(s)| == |s|
  {
    if s != [] {
      var init, last := s[..|s| - 1], s[|s| - 1];
      StrictCount(init);
      InitLast(s);
      assert last !in Elements(init);
      assert Elements(s) == Elements(init) + {last};
    }
  }

  /** In a strictly ascending list, position is the number of smaller elements. */
  lemma PositionIsRank(d: seq<nat>, i: nat)
    requires StrictlyAscending(d) && i < |d|
    ensures |set y | y in d && y < d[i]| == i
  {
    StrictCount(d[..i]);
    forall y ensures y in d[..i] <==> y in d && y < d[i] {
      if y in d && y < d[i] {
        var j :| 0 <= j < |d| && d[j] == y;
        assert j < i;
        assert d[..i][j] == y;
      }
    }
    assert Elements(d[..i]) == (set y | y in d && y < d[i]);
  }

  lemma TruncatedMembers(d: seq<nat>, all: set<nat>, n: nat, x: nat)
    requires StrictlyAscending(d) && forall y :: y in d <==> y in all
    ensures x in Truncate(d, n) <==> x in all && |set y | y in all && y < x| < n
  {
    TruncateFacts(d, n);
    if x in d {
      var i :| 0 <= i < |d| && d[i] == x;
      PositionIsRank(d, i);
      assert (set y | y in d && y < d[i]) == (set y | y in all && y < x);
      TruncateKeeps(d, n, i);
    }
  }

  lemma BatchMembers(pending: seq<Tracked>, x: Signature)
    ensures x in Batch(pending)
       <==> x in AllSignatures(pending)
            && |set y | y in DistinctSignatures(pending) && y < x| < MAX_SIGS_PER_CALL
    ensures StrictlyAscending(Batch(pending)) && |Batch(pending)| <= MAX_SIGS_PER_CALL
  {
    var d := Dedup(Sort(AllSignatures(pending), Ascending()));
    DedupedSignatures(pending);
    TruncateFacts(d, MAX_SIGS_PER_CALL);
    TruncatedMembers(d, DistinctSignatures(pending), MAX_SIGS_PER_CALL, x);
  }

  lemma TruncateFacts(d: seq<nat>, n: nat)
    requires StrictlyAscending(d)
    ensures StrictlyAscending(Truncate(d, n)) && |Truncate(d, n)| <= n
    ensures forall y :: y in Truncate(d, n) ==> y in d
  {
  }

  lemma TruncateKeeps(d: seq<nat>, n: nat, i: nat)
    requires StrictlyAscending(d) && i < |d|
    ensures d[i] in Truncate(d, n) <==> i < n
  {
    if i < n {
      assert Truncate(d, n)[i] == d[i];
    }
  }

  /** The batch is exactly the pending signatures with fewer than 256 smaller ones. */
  lemma BatchMembership(pending: seq<Tracked>, x: Signature)
    ensures x in Batch(pending)
       <==> x in AllSignatures(pending) && |set y | y in DistinctSignatures(pending) && y < x| < 256
    ensures StrictlyAscending(Batch(pending)) && |Batch(pending)| <= 256
  {
    BatchMembers(pending, x);
  }

  /** With at most 256 distinct signatures pending, all of them are asked about. */
  lemma BatchIsComplete(pending: seq<Tracked>, x: Signature)
    requires |DistinctSignatures(pending)| <= MAX_SIGS_PER_CALL
    ensures x in Batch(pending) <==> x in AllSignatures(pending)
  {
    BatchMembership(pending, x);
    if x in AllSignatures(pending) {
      var below := set y | y in DistinctSignatures(pending) && y < x;
      SubsetSize(below + {x}, DistinctSignatures(pending));
    }
  }

  lemma {:induction false} SubsetSize<T>(a: set<T>, b: set<T>)
    requires a <= b
    ensures |a| <= |b|
  {
    if a != {} {
      var x :| x in a;
      SubsetSize(a - {x}, b - {x});
    }
  }

  // ----- the reply -----

  /** Pair signatures with statuses up to the shorter list, keeping the known ones. */
  function KnownStatuses(batch: seq<Signature>, reply: seq<Option<Status>>, n: nat): map<Signature, Status>
    requires n <= |batch| && n <= |reply|
  {
    if n == 0 then map[]
    else if reply[n - 1].Some? then KnownStatuses(batch, reply, n - 1)[batch[n - 1] := reply[n - 1].value]
    else KnownStatuses(batch, reply, n - 1)
  }

  function Known(batch: seq<Signature>, reply: seq<Option<Status>>): map<Signature, Status> {
    KnownStatuses(batch, reply, if |batch| <= |reply| then |batch| else |reply|)
  }

  lemma {:induction false} KnownPrefix(
    batch: seq<Signature>, reply: seq<Option<Status>>, n: nat, x: Signature, st: Status)
    requires n <= |batch| && n <= |reply| && StrictlyAscending(batch)
    ensures x in KnownStatuses(batch, reply, n) && KnownStatuses(batch, reply, n)[x] == st
       <==> exists i :: 0 <= i < n && batch[i] == x && reply[i] == Some(st)
  {
    if n != 0 {
      KnownPrefix(batch, reply, n - 1, x, st);
      if batch[n - 1] == x && reply[n - 1] == Some(st) {
        assert 0 <= n - 1 < n;
      }
    }
  }

  /** A status is attributed to a signature exactly when the reply puts it at the
      signature's own position. */
  lemma KnownExactly(pending: seq<Tracked>, reply: seq<Option<Status>>, x: Signature, st: Status)
    ensures var batch := Batch(pending);
      x in Known(batch, reply) && Known(batch, reply)[x] == st
      <==> exists i :: 0 <= i < |batch| && i < |reply| && batch[i] == x && reply[i] == Some(st)
  {
    var batch := Batch(pending);
    BatchMembership(pending, x);
    KnownPrefix(batch, reply, if |batch| <= |reply| then |batch| else |reply|, x, st);
  }

  // ----- verdicts -----

  datatype Verdict = Finalize | Process(slot: u64) | Drop | Keep

  predicate AtLevelFinalized(x: Signature, e: Evidence) {
    x in e.known && e.known[x].level == Some(AtFinalized)
  }

  predicate AtLevelConfirmed(x: Signature, e: Evidence) {
    x in e.known && (e.known[x].level == Some(AtConfirmed) || e.known[x].level == Some(AtFinalized))
  }

  predicate AllFinalized(t: Tracked, e: Evidence) {
    forall x :: x in t.signatures ==> AtLevelFinalized(x, e)
  }

  predicate AllConfirmed(t: Tracked, e: Evidence) {
    forall x :: x in t.signatures ==> AtLevelConfirmed(x, e)
  }

  /** The largest slot reported for any of the signatures, 0 if none is known. */
  function LatestSlot(sigs: seq<Signature>, e: Evidence): u64 {
    if sigs == [] then 0
    else
      var rest := LatestSlot(sigs[..|sigs| - 1], e);
      var x := sigs[|sigs| - 1];
      if x in e.known && e.known[x].slot > rest then e.known[x].slot else rest
  }

  function Judge(t: Tracked, e: Evidence): Verdict {
    if AllFinalized(t, e) then Finalize
    else if AllConfirmed(t, e) && !t.processedEmitted then Process(LatestSlot(t.signatures, e))
    else if SatSub(e.now, t.since) > e.deadline then Drop
    else Keep
  }

  /** A poll's verdicts, as a function of the entry. */
  type Judgement = Tracked -> Verdict

  function JudgeBy(e: Evidence): Judgement { (t: Tracked) => Judge(t, e) }

  function Mark(t: Tracked, j: Judgement): Tracked {
    if j(t).Process? then t.(processedEmitted := true) else t
  }

  predicate Leaves(t: Tracked, j: Judgement) {
    j(t).Finalize? || j(t).Drop?
  }

  /** What one entry announces, if anything. */
  function Announcement(t: Tracked, j: Judgement): Option<Publication> {
    match j(t)
    case Finalize => Some(Publication(t.uuid, Finalized))
    case Process(slot) => Some(Publication(t.uuid, Processed(slot)))
    case Drop => Some(Publication(t.uuid, Dropped))
    case Keep => None
  }

  // ----- the sweep over the pending list -----

  /** The work lists of a poll. */
  datatype Sweep = Sweep(
    marked: seq<Tracked>, remove: seq<nat>,
    process: seq<Publication>, finalize: seq<Publication>, drop: seq<Publication>)

  function SweepOne(w: Sweep, t: Tracked, j: Judgement): Sweep {
    var w' := w.(marked := w.marked + [Mark(t, j)]);
    match j(t)
    case Finalize => w'.(remove := w.remove + [|w.marked|],
                         finalize := w.finalize + [Publication(t.uuid, Finalized)])
    case Process(slot) => w'.(process := w.process + [Publication(t.uuid, Processed(slot))])
    case Drop => w'.(remove := w.remove + [|w.marked|], drop := w.drop + [Publication(t.uuid, Dropped)])
    case Keep => w'
  }

  function SweepAll(pending: seq<Tracked>, j: Judgement): Sweep {
    if pending == [] then Sweep([], [], [], [], [])
    else SweepOne(SweepAll(pending[..|pending| - 1], j), pending[|pending| - 1], j)
  }

  /** The intended result: drop the resolved entries, keep the others in order. */
  function Remaining(pending: seq<Tracked>, j: Judgement): seq<Tracked> {
    if pending == [] then []
    else
      var t := pending[|pending| - 1];
      var rest := Remaining(pending[..|pending| - 1], j);
      if Leaves(t, j) then rest else rest + [Mark(t, j)]
  }

  function Publications(pending: seq<Tracked>, j: Judgement): seq<Publication> {
    var w := SweepAll(pending, j);
    w.process + w.finalize + w.drop
  }

  function RemoveAt<T>(s: seq<T>, i: nat): seq<T>
    requires i < |s|
  {
    s[..i] + s[i + 1..]
  }

  ghost predicate Indices(idx: seq<nat>, n: nat) {
    StrictlyAscending(idx) && forall i :: 0 <= i < |idx| ==> idx[i] < n
  }

  /** Remove by index, largest index first. */
  function RemoveDescending<T>(s: seq<T>, idx: seq<nat>): seq<T>
    requires Indices(idx, |s|)
    decreases |idx|
  {
    if idx == [] then s
    else
      var last := idx[|idx| - 1];
      assert forall i :: 0 <= i < |idx| - 1 ==> idx[i] < last;
      RemoveDescending(RemoveAt(s, last), idx[..|idx| - 1])
  }

  lemma {:induction false} RemoveInFront<T>(s: seq<T>, x: T, idx: seq<nat>)
    requires Indices(idx, |s|)
    ensures Indices(idx, |s + [x]|) && RemoveDescending(s + [x], idx) == RemoveDescending(s, idx) + [x]
    decreases |idx|
  {
    if idx != [] {
      var last := idx[|idx| - 1];
      assert RemoveAt(s + [x], last) == RemoveAt(s, last) + [x];
      assert forall i :: 0 <= i < |idx| - 1 ==> idx[i] < last;
      RemoveInFront(RemoveAt(s, last), x, idx[..|idx| - 1]);
    }
  }

  lemma RemoveLast<T>(s: seq<T>, x: T, idx: seq<nat>)
    requires Indices(idx, |s|)
    ensures Indices(idx + [|s|], |s + [x]|)
    ensures RemoveDescending(s + [x], idx + [|s|]) == RemoveDescending(s, idx)
  {
    assert (idx + [|s|])[..|idx|] == idx;
    assert RemoveAt(s + [x], |s|) == s;
  }

  /** The collected indices describe `result` as what is left of the marked entries. */
  ghost predicate LeavesBehind(marked: seq<Tracked>, remove: seq<nat>, result: seq<Tracked>) {
    Indices(remove, |marked|) && RemoveDescending(marked, remove) == result
  }

  lemma LeavesBehindStep(w: Sweep, result: seq<Tracked>, t: Tracked, j: Judgement)
    requires LeavesBehind(w.marked, w.remove, result)
    ensures LeavesBehind(SweepOne(w, t, j).marked, SweepOne(w, t, j).remove,
                         if Leaves(t, j) then result else result + [Mark(t, j)])
  {
    assert SweepOne(w, t, j).marked == w.marked + [Mark(t, j)];
    if Leaves(t, j) {
      assert SweepOne(w, t, j).remove == w.remove + [|w.marked|];
      LastLeaves(w.marked, Mark(t, j), w.remove, result);
    } else {
      assert SweepOne(w, t, j).remove == w.remove;
      LastStays(w.marked, Mark(t, j), w.remove, result);
    }
  }

  lemma LastLeaves(marked: seq<Tracked>, m: Tracked, remove: seq<nat>, result: seq<Tracked>)
    requires LeavesBehind(marked, remove, result)
    ensures LeavesBehind(marked + [m], remove + [|marked|], result)
  {
    RemoveLast(marked, m, remove);
  }

  lemma LastStays(marked: seq<Tracked>, m: Tracked, remove: seq<nat>, result: seq<Tracked>)
    requires LeavesBehind(marked, remove, result)
    ensures LeavesBehind(marked + [m], remove, result + [m])
  {
    RemoveInFront(marked, m, remove);
  }

  /** Removing the collected indices from the back equals filtering, with order kept. */
  lemma {:induction false} RemovalIsFiltering(pending: seq<Tracked>, j: Judgement)
    ensures LeavesBehind(SweepAll(pending, j).marked, SweepAll(pending, j).remove, Remaining(pending, j))
  {
    if pending != [] {
      var init, t := pending[..|pending| - 1], pending[|pending| - 1];
      RemovalIsFiltering(init, j);
      var w := SweepAll(init, j);
      LeavesBehindStep(w, Remaining(init, j), t, j);
      assert SweepAll(pending, j) == SweepOne(w, t, j);
      assert Remaining(pending, j) == if Leaves(t, j) then Remaining(init, j) else Remaining(init, j) + [Mark(t, j)];
    }
  }

  lemma {:induction false} RemainingAppend(a: seq<Tracked>, b: seq<Tracked>, j: Judgement)
    ensures Remaining(a + b, j) == Remaining(a, j) + Remaining(b, j)
    decreases |b|
  {
    if b == [] {
      assert a + b == a;
    } else {
      RemainingAppend(a, b[..|b| - 1], j);
      assert (a + b)[..|a + b| - 1] == a + b[..|b| - 1];
    }
  }

  lemma {:induction false} RemainingMember(pending: seq<Tracked>, j: Judgement, r: Tracked)
    ensures r in Remaining(pending, j) <==> exists t :: t in pending && !Leaves(t, j) && r == Mark(t, j)
  {
    if pending != [] {
      var init, last := pending[..|pending| - 1], pending[|pending| - 1];
      RemainingMember(init, j, r);
      InitLast(pending);
      if !Leaves(last, j) && r == Mark(last, j) {
        assert last in pending;
      }
    }
  }

  lemma {:induction false} RemainingKept(pending: seq<Tracked>, j: Judgement)
    requires forall t :: t in pending ==> j(t).Keep?
    ensures Remaining(pending, j) == pending
  {
    if pending != [] {
      RemainingKept(pending[..|pending| - 1], j);
    }
  }

  // ----- verdicts mean what they say -----

  /** Position `i` of the reply reports `x` finalized. */
  predicate ReportedFinalized(batch: seq<Signature>, reply: seq<Option<Status>>, x: Signature, i: int) {
    && 0 <= i < |batch| && i < |reply| && batch[i] == x && reply[i].Some?
    && reply[i].value.level == Some(AtFinalized)
  }

  /** A bundle is reported finalized exactly when each of its signatures was asked about
      and reported finalized at its own position of this reply. */
  lemma FinalizedExactly(asked: seq<Tracked>, reply: seq<Option<Status>>, t: Tracked, now: nat, deadline: nat)
    ensures var batch := Batch(asked);
      Judge(t, Evidence(Known(batch, reply), now, deadline)).Finalize?
      <==> forall x :: x in t.signatures ==> exists i :: ReportedFinalized(batch, reply, x, i)
  {
    var batch := Batch(asked);
    var e := Evidence(Known(batch, reply), now, deadline);
    forall x ensures AtLevelFinalized(x, e) <==> exists i :: ReportedFinalized(batch, reply, x, i) {
      FinalizedSignature(asked, reply, x, e);
    }
  }

  lemma FinalizedSignature(asked: seq<Tracked>, reply: seq<Option<Status>>, x: Signature, e: Evidence)
    requires e.known == Known(Batch(asked), reply)
    ensures AtLevelFinalized(x, e) <==> exists i :: ReportedFinalized(Batch(asked), reply, x, i)
  {
    var batch := Batch(asked);
    if AtLevelFinalized(x, e) {
      KnownExactly(asked, reply, x, e.known[x]);
      var i :| 0 <= i < |batch| && i < |reply| && batch[i] == x && reply[i] == Some(e.known[x]);
      assert ReportedFinalized(batch, reply, x, i);
    }
    if i :| ReportedFinalized(batch, reply, x, i) {
      KnownExactly(asked, reply, x, reply[i].value);
    }
  }

  lemma ConfirmedSignature(asked: seq<Tracked>, reply: seq<Option<Status>>, x: Signature, e: Evidence)
    requires e.known == Known(Batch(asked), reply)
    ensures AtLevelConfirmed(x, e) <==> exists i :: ReportedConfirmed(Batch(asked), reply, x, i)
  {
    var batch := Batch(asked);
    if AtLevelConfirmed(x, e) {
      KnownExactly(asked, reply, x, e.known[x]);
      var i :| 0 <= i < |batch| && i < |reply| && batch[i] == x && reply[i] == Some(e.known[x]);
      assert ReportedConfirmed(batch, reply, x, i);
    }
    if i :| ReportedConfirmed(batch, reply, x, i) {
      KnownExactly(asked, reply, x, reply[i].value);
    }
  }

  /** Position `i` of the reply reports `x` confirmed or finalized. */
  predicate ReportedConfirmed(batch: seq<Signature>, reply: seq<Option<Status>>, x: Signature, i: int) {
    && 0 <= i < |batch| && i < |reply| && batch[i] == x && reply[i].Some?
    && (reply[i].value.level == Some(AtConfirmed) || reply[i].value.level == Some(AtFinalized))
  }

  /** The reported slot bounds the slots of all known signatures, and is one of them. */
  lemma {:induction false} LatestSlotIsMax(sigs: seq<Signature>, e: Evidence)
    ensures forall x :: x in sigs && x in e.known ==> e.known[x].slot <= LatestSlot(sigs, e)
    ensures LatestSlot(sigs, e) == 0 || exists x :: x in sigs && x in e.known && e.known[x].slot == LatestSlot(sigs, e)
  {
    if sigs != [] {
      var init, last := sigs[..|sigs| - 1], sigs[|sigs| - 1];
      LatestSlotIsMax(init, e);
      InitLast(sigs);
    }
  }

  /** A bundle is reported processed exactly when each signature was reported confirmed or
      finalized, not all of them finalized, and it was not reported processed before; the
      slot is the largest reported for its signatures. */
  lemma ProcessedExactly(asked: seq<Tracked>, reply: seq<Option<Status>>, t: Tracked, now: nat, deadline: nat)
    ensures var e := Evidence(Known(Batch(asked), reply), now, deadline);
      && (Judge(t, e).Process?
          <==> && (forall x :: x in t.signatures ==> exists i :: ReportedConfirmed(Batch(asked), reply, x, i))
               && (exists x :: x in t.signatures && !AtLevelFinalized(x, e))
               && !t.processedEmitted)
      && (Judge(t, e).Process? ==> LatestReported(t, Batch(asked), reply, Judge(t, e).slot))
  {
    var e := Evidence(Known(Batch(asked), reply), now, deadline);
    forall x ensures AtLevelConfirmed(x, e) <==> exists i :: ReportedConfirmed(Batch(asked), reply, x, i) {
      ConfirmedSignature(asked, reply, x, e);
    }
    LatestSlotIsMax(t.signatures, e);
    if Judge(t, e).Process? {
      forall x, i | x in t.signatures && ReportedConfirmed(Batch(asked), reply, x, i)
        ensures reply[i].value.slot <= Judge(t, e).slot
      {
        KnownExactly(asked, reply, x, reply[i].value);
      }
      LatestIsAttained(asked, reply, t, e);
    }
  }

  /** The slot is reported for some signature of the entry, and no signature is reported
      with a later one. */
  ghost predicate LatestReported(t: Tracked, batch: seq<Signature>, reply: seq<Option<Status>>, slot: u64) {
    && (exists x, i :: x in t.signatures && ReportedConfirmed(batch, reply, x, i) && reply[i].value.slot == slot)
    && (forall x, i :: x in t.signatures && ReportedConfirmed(batch, reply, x, i) ==> reply[i].value.slot <= slot)
  }

  lemma LatestIsAttained(asked: seq<Tracked>, reply: seq<Option<Status>>, t: Tracked, e: Evidence)
    requires e.known == Known(Batch(asked), reply) && AllConfirmed(t, e) && t.signatures != []
    ensures exists x, i :: x in t.signatures && ReportedConfirmed(Batch(asked), reply, x, i)
                           && reply[i].value.slot == LatestSlot(t.signatures, e)
  {
    LatestSlotIsMax(t.signatures, e);
    var x: Signature;
    if LatestSlot(t.signatures, e) == 0 {
      x := t.signatures[0];
    } else {
      x :| x in t.signatures && x in e.known && e.known[x].slot == LatestSlot(t.signatures, e);
    }
    assert AtLevelConfirmed(x, e) && e.known[x].slot == LatestSlot(t.signatures, e);
    KnownExactly(asked, reply, x, e.known[x]);
    var i :| 0 <= i < |Batch(asked)| && i < |reply| && Batch(asked)[i] == x && reply[i] == Some(e.known[x]);
    assert ReportedConfirmed(Batch(asked), reply, x, i);
  }

  /** The node's answer is complete and is what the chain says. */
  ghost predicate FullAnswer(batch: seq<Signature>, reply: seq<Option<Status>>, chain: Signature -> Option<Status>) {
    |reply| == |batch| && forall i :: 0 <= i < |reply| ==> reply[i] == chain(batch[i])
  }

  predicate FinalOnChain(t: Tracked, chain: Signature -> Option<Status>) {
    forall x :: x in t.signatures ==> chain(x).Some? && chain(x).value.level == Some(AtFinalized)
  }

  /** How many distinct pending signatures are smaller than `x`. */
  ghost function RankIn(asked: seq<Tracked>, x: Signature): nat {
    |set y | y in DistinctSignatures(asked) && y < x|
  }

  /** A bundle that is finalized on chain is judged finalized by a full answer if and only
      if all its signatures were asked about. */
  lemma FinalizedIffAsked(
    asked: seq<Tracked>, reply: seq<Option<Status>>, t: Tracked, now: nat, deadline: nat,
    chain: Signature -> Option<Status>)
    requires FullAnswer(Batch(asked), reply, chain) && FinalOnChain(t, chain)
    ensures Judge(t, Evidence(Known(Batch(asked), reply), now, deadline)).Finalize?
       <==> forall x :: x in t.signatures ==> x in Batch(asked)
  {
    var batch := Batch(asked);
    forall x | x in t.signatures ensures (exists i :: ReportedFinalized(batch, reply, x, i)) <==> x in batch {
      if x in batch {
        var i :| 0 <= i < |batch| && batch[i] == x;
        assert ReportedFinalized(batch, reply, x, i);
      }
    }
    FinalizedExactly(asked, reply, t, now, deadline);
  }

  /** A pending bundle that is finalized on chain is reported by a full answer if and only
      if each of its signatures has fewer than 256 smaller ones pending. */
  lemma FinalizedIffRanked(
    asked: seq<Tracked>, reply: seq<Option<Status>>, t: Tracked, now: nat, deadline: nat,
    chain: Signature -> Option<Status>)
    requires t in asked && FullAnswer(Batch(asked), reply, chain) && FinalOnChain(t, chain)
    ensures Judge(t, Evidence(Known(Batch(asked), reply), now, deadline)).Finalize?
       <==> forall x :: x in t.signatures ==> RankIn(asked, x) < MAX_SIGS_PER_CALL
  {
    forall x | x in t.signatures ensures x in Batch(asked) <==> RankIn(asked, x) < MAX_SIGS_PER_CALL {
      AllSignaturesMember(asked, x);
      BatchMembership(asked, x);
    }
    FinalizedIffAsked(asked, reply, t, now, deadline, chain);
  }

  /** So with at most 256 distinct signatures pending it is always reported. */
  lemma FinalizedIsReported(
    asked: seq<Tracked>, reply: seq<Option<Status>>, t: Tracked, now: nat, deadline: nat,
    chain: Signature -> Option<Status>)
    requires t in asked && FullAnswer(Batch(asked), reply, chain) && FinalOnChain(t, chain)
    requires |DistinctSignatures(asked)| <= MAX_SIGS_PER_CALL
    ensures Judge(t, Evidence(Known(Batch(asked), reply), now, deadline)).Finalize?
  {
    forall x | x in t.signatures ensures RankIn(asked, x) < MAX_SIGS_PER_CALL {
      AllSignaturesMember(asked, x);
      BatchIsComplete(asked, x);
      BatchMembership(asked, x);
    }
    FinalizedIffRanked(asked, reply, t, now, deadline, chain);
  }

  /** And one signature beyond the limit hides the bundle, whatever the reply. */
  lemma FinalizedCanBeMissed(
    asked: seq<Tracked>, reply: seq<Option<Status>>, t: Tracked, x: Signature, now: nat, deadline: nat)
    requires x in t.signatures && RankIn(asked, x) >= MAX_SIGS_PER_CALL
    ensures !Judge(t, Evidence(Known(Batch(asked), reply), now, deadline)).Finalize?
    ensures !Judge(t, Evidence(Known(Batch(asked), reply), now, deadline)).Process?
  {
    BatchMembership(asked, x);
    UnaskedIsUnknown(asked, reply, x);
  }

  // ----- entries tracked while the request was in flight -----

  /** Some signature of the entry was not asked about. */
  ghost predicate NotAsked(t: Tracked, asked: seq<Tracked>) {
    exists x :: x in t.signatures && x !in Batch(asked)
  }

  lemma UnaskedIsUnknown(asked: seq<Tracked>, reply: seq<Option<Status>>, x: Signature)
    requires x !in Batch(asked)
    ensures x !in Known(Batch(asked), reply)
  {
    if x in Known(Batch(asked), reply) {
      KnownExactly(asked, reply, x, Known(Batch(asked), reply)[x]);
    }
  }

  lemma LateEntryKept(asked: seq<Tracked>, reply: seq<Option<Status>>, t: Tracked, now: nat, deadline: nat)
    requires NotAsked(t, asked) && SatSub(now, t.since) <= deadline
    ensures Judge(t, Evidence(Known(Batch(asked), reply), now, deadline)).Keep?
  {
    var e := Evidence(Known(Batch(asked), reply), now, deadline);
    var x :| x in t.signatures && x !in Batch(asked);
    UnaskedIsUnknown(asked, reply, x);
    assert !AtLevelFinalized(x, e) && !AtLevelConfirmed(x, e);
  }

  /** Entries tracked while the request was in flight, within their deadline and with one
      signature that was not asked about, stay in order and unmarked; the others are swept
      as if the late ones were not there. */
  lemma LateEntriesSurvive(asked: seq<Tracked>, reply: seq<Option<Status>>, late: seq<Tracked>, now: nat, deadline: nat)
    requires forall t :: t in late ==> NotAsked(t, asked) && SatSub(now, t.since) <= deadline
    ensures var j := JudgeBy(Evidence(Known(Batch(asked), reply), now, deadline));
      Remaining(asked + late, j) == Remaining(asked, j) + late
  {
    var j := JudgeBy(Evidence(Known(Batch(asked), reply), now, deadline));
    RemainingAppend(asked, late, j);
    forall t | t in late ensures j(t).Keep? {
      LateEntryKept(asked, reply, t, now, deadline);
    }
    RemainingKept(late, j);
  }

  /** Any entry, late or not, leaves if and only if each of its signatures was reported
      finalized at its own position, or its deadline has passed and this reply does not
      make it processed for the first time. */
  lemma LeavesExactly(asked: seq<Tracked>, reply: seq<Option<Status>>, t: Tracked, now: nat, deadline: nat)
    ensures var batch := Batch(asked);
      Leaves(t, JudgeBy(Evidence(Known(batch, reply), now, deadline)))
      <==> || (forall x :: x in t.signatures ==> exists i :: ReportedFinalized(batch, reply, x, i))
           || (&& SatSub(now, t.since) > deadline
               && (t.processedEmitted
                   || exists x :: x in t.signatures && forall i :: !ReportedConfirmed(batch, reply, x, i)))
  {
    FinalizedExactly(asked, reply, t, now, deadline);
    ProcessedExactly(asked, reply, t, now, deadline);
  }

  /** An entry reported processed stays, and is never reported processed again. */
  lemma ProcessedOnce(pending: seq<Tracked>, t: Tracked, e: Evidence, later: Evidence)
    requires t in pending && Judge(t, e).Process?
    ensures t.(processedEmitted := true) in Remaining(pending, JudgeBy(e))
    ensures !Judge(Mark(t, JudgeBy(e)), later).Process?
  {
    RemainingMember(pending, JudgeBy(e), t.(processedEmitted := true));
  }

  // ----- announcements -----

  lemma {:induction false} SweepAnnounces(pending: seq<Tracked>, j: Judgement, p: Publication)
    ensures p in Publications(pending, j) <==> exists t :: t in pending && Announcement(t, j) == Some(p)
  {
    if pending != [] {
      var init, last := pending[..|pending| - 1], pending[|pending| - 1];
      SweepAnnounces(init, j, p);
      InitLast(pending);
      if Announcement(last, j) == Some(p) {
        assert last in pending;
      }
    }
  }

  /** Results are published in this order. */
  function Turn(k: ResultKind): nat { if k.Processed? then 0 else if k.Finalized? then 1 else 2 }

  lemma {:induction false} SweepSorts(pending: seq<Tracked>, j: Judgement)
    ensures var w := SweepAll(pending, j);
      && (forall p :: p in w.process ==> p.kind.Processed?)
      && (forall p :: p in w.finalize ==> p.kind.Finalized?)
      && (forall p :: p in w.drop ==> p.kind.Dropped?)
  {
    if pending != [] {
      SweepSorts(pending[..|pending| - 1], j);
    }
  }

  /** One poll publishes what was processed, then what was finalized, then what was dropped. */
  lemma PublishedInTurn(pending: seq<Tracked>, j: Judgement, a: nat, b: nat)
    requires a < b < |Publications(pending, j)|
    ensures Turn(Publications(pending, j)[a].kind) <= Turn(Publications(pending, j)[b].kind)
  {
    SweepSorts(pending, j);
    var w := SweepAll(pending, j);
    var n, m := |w.process|, |w.process| + |w.finalize|;
    forall i | 0 <= i < |Publications(pending, j)|
      ensures Turn(Publications(pending, j)[i].kind) == if i < n then 0 else if i < m then 1 else 2
    {
      if i < n {
        assert w.process[i] in w.process;
      } else if i < m {
        assert w.finalize[i - n] in w.finalize;
      } else {
        assert w.drop[i - m] in w.drop;
      }
    }
  }

  ghost predicate DistinctUuids(pending: seq<Tracked>) {
    forall i, j :: 0 <= i < j < |pending| ==> pending[i].uuid != pending[j].uuid
  }

  ghost predicate DistinctTargets(ps: seq<Publication>) {
    forall i, j :: 0 <= i < j < |ps| ==> ps[i].uuid != ps[j].uuid
  }

  /** One poll announces at most one result per bundle. */
  lemma {:induction false} OneAnnouncementEach(pending: seq<Tracked>, j: Judgement)
    requires DistinctUuids(pending)
    ensures DistinctTargets(Publications(pending, j))
  {
    if pending != [] {
      var init, last := pending[..|pending| - 1], pending[|pending| - 1];
      OneAnnouncementEach(init, j);
      var w, w' := SweepAll(init, j), SweepAll(pending, j);
      forall p | p in Publications(init, j) ensures p.uuid != last.uuid {
        SweepAnnounces(init, j, p);
        var t :| t in init && Announcement(t, j) == Some(p);
      }
      var a := Announcement(last, j);
      if a.Some? {
        var p := a.value;
        if j(last).Process? {
          assert Publications(init, j) == w.process + (w.finalize + w.drop);
          InsertTarget(w.process, w.finalize + w.drop, p);
          assert Publications(pending, j) == w.process + [p] + (w.finalize + w.drop);
        } else if j(last).Finalize? {
          InsertTarget(w.process + w.finalize, w.drop, p);
          assert Publications(pending, j) == w.process + w.finalize + [p] + w.drop;
        } else {
          assert Publications(init, j) == Publications(init, j) + [];
          InsertTarget(Publications(init, j), [], p);
          assert Publications(pending, j) == Publications(init, j) + [p] + [];
        }
      }
    }
  }

  lemma InsertTarget(a: seq<Publication>, b: seq<Publication>, p: Publication)
    requires DistinctTargets(a + b)
    requires forall q :: q in a + b ==> q.uuid != p.uuid
    ensures DistinctTargets(a + [p] + b)
  {
    var c := a + [p] + b;
    assert forall i :: 0 <= i < |a| ==> c[i] == (a + b)[i];
    assert forall i :: |a| < i < |c| ==> c[i] == (a + b)[i - 1];
  }

  /** Each remaining entry is an old one, with its uuid; uuids stay distinct. */
  lemma {:induction false} RemainingDistinct(pending: seq<Tracked>, j: Judgement)
    requires DistinctUuids(pending)
    ensures DistinctUuids(Remaining(pending, j))
  {
    if pending != [] {
      var init, last := pending[..|pending| - 1], pending[|pending| - 1];
      RemainingDistinct(init, j);
      forall r | r in Remaining(init, j) ensures r.uuid != last.uuid {
        RemainingMember(init, j, r);
        var t :| t in init && !Leaves(t, j) && r == Mark(t, j);
      }
    }
  }
}
