/** The on-chain tracker as an object with a list of pending bundles. */
module Tracker {
  import opened Common
  import opened Bundles
  import opened StableSort
  import opened TrackerSpec

  class BundleTracker {
    var pending: seq<Tracked>
    const deadline: nat
    /** Primary signature of a packet, if it decodes to a transaction that has one. */
    const primarySignature: Packet -> Option<Signature>

    /** Tracked signature lists are never empty. */
    ghost predicate Valid()
      reads this
    {
      forall t :: t in pending ==> t.signatures != []
    }

    constructor (deadline: nat, primarySignature: Packet -> Option<Signature>)
      ensures Valid() && pending == [] && this.deadline == deadline && this.primarySignature == primarySignature
    {
      this.pending, this.deadline, this.primarySignature := [], deadline, primarySignature;
    }

    /** Start tracking a forwarded bundle; one without signatures is ignored. */
    method Track(bundle: BundleUuid, now: nat)
      requires Valid()
      modifies this
      ensures Valid()
      ensures var sigs := SignaturesOf(bundle.Packets(), primarySignature);
        pending == if sigs == [] then old(pending) else old(pending) + [Tracked(bundle.uuid, sigs, now, false)]
    {
      var packets := bundle.Packets();
      var sigs: seq<Signature> := [];
      for i := 0 to |packets|
        invariant sigs == SignaturesOf(packets[..i], primarySignature)
      {
        assert packets[..i + 1][..i] == packets[..i];
        var s := primarySignature(packets[i]);
        if s.Some? {
          sigs := sigs + [s.value];
        }
      }
      assert packets[..|packets|] == packets;
      if sigs == [] {
        return;
      }
      pending := pending + [Tracked(bundle.uuid, sigs, now, false)];
    }

    /** First half of a poll: which signatures to ask about. */
    method CollectBatch() returns (batch: seq<Signature>)
      ensures batch == Batch(pending)
    {
      var sigs: seq<Signature> := [];
      for i := 0 to |pending|
        invariant sigs == AllSignatures(pending[..i])
      {
        assert pending[..i + 1][..i] == pending[..i];
        sigs := sigs + pending[i].signatures;
      }
      assert pending[..|pending|] == pending;
      batch := Truncate(Dedup(Sort(sigs, Ascending())), MAX_SIGS_PER_CALL);
    }

    /** Second half of a poll: judge every pending entry by the reply, remove the resolved
        ones by index, and return what is to be published, in publishing order. */
    method ApplyReply(batch: seq<Signature>, reply: seq<Option<Status>>, now: nat)
      returns (publications: seq<Publication>)
      requires Valid()
      modifies this
      ensures Valid()
      ensures var j := JudgeBy(Evidence(Known(batch, reply), now, deadline));
        pending == Remaining(old(pending), j) && publications == Publications(old(pending), j)
    {
      var known := ReadReply(batch, reply);
      var j := JudgeBy(Evidence(known, now, deadline));
      ghost var before := pending;
      var w := JudgePending(j);
      RemovalIsFiltering(before, j);
      SortDedupStrict(w.remove);
      RemoveIndices(Dedup(Sort(w.remove, Ascending())));
      forall r | r in pending ensures r.signatures != [] {
        RemainingMember(before, j, r);
      }
      publications := w.process + w.finalize + w.drop;
    }

    method ReadReply(batch: seq<Signature>, reply: seq<Option<Status>>) returns (known: map<Signature, Status>)
      ensures known == Known(batch, reply)
    {
      known := map[];
      var n := if |batch| <= |reply| then |batch| else |reply|;
      for i := 0 to n
        invariant known == KnownStatuses(batch, reply, i)
      {
        if reply[i].Some? {
          known := known[batch[i] := reply[i].value];
        }
      }
    }

    /** The loop over `pending.iter_mut().enumerate()`: flags entries in place and fills
        the work lists. */
    method JudgePending(j: Judgement) returns (w: Sweep)
      modifies this
      ensures pending == w.marked && w == SweepAll(old(pending), j)
    {
      ghost var before := pending;
      w := Sweep([], [], [], [], []);
      for idx := 0 to |pending|
        invariant |pending| == |before| && forall k :: idx <= k < |before| ==> pending[k] == before[k]
        invariant w == SweepAll(before[..idx], j) && pending[..idx] == w.marked
      {
        var t := pending[idx];
        assert before[..idx + 1][..idx] == before[..idx];
        assert SweepAll(before[..idx + 1], j) == SweepOne(w, t, j);
        match j(t) {
          case Finalize =>
            w := w.(finalize := w.finalize + [Publication(t.uuid, Finalized)], remove := w.remove + [idx]);
          case Process(slot) =>
            pending := pending[idx := t.(processedEmitted := true)];
            w := w.(process := w.process + [Publication(t.uuid, Processed(slot))]);
          case Drop =>
            w := w.(drop := w.drop + [Publication(t.uuid, Dropped)], remove := w.remove + [idx]);
          case Keep =>
        }
        w := w.(marked := w.marked + [pending[idx]]);
        assert pending[..idx + 1] == pending[..idx] + [pending[idx]];
      }
      assert before[..|before|] == before && pending[..|before|] == pending;
    }

    /** `for idx in to_remove.into_iter().rev() { pending.remove(idx) }`. */
    method RemoveIndices(idx: seq<nat>)
      requires Indices(idx, |pending|)
      modifies this
      ensures pending == RemoveDescending(old(pending), idx)
    {
      var n := |idx|;
      assert idx[..n] == idx;
      while n > 0
        invariant 0 <= n <= |idx|
        invariant Indices(idx[..n], |pending|)
        invariant RemoveDescending(pending, idx[..n]) == RemoveDescending(old(pending), idx)
      {
        assert idx[..n][..n - 1] == idx[..n - 1];
        pending := RemoveAt(pending, idx[n - 1]);
        n := n - 1;
      }
    }
  }

  /** The signatures a bundle is tracked by: one per packet that has one, in order. */
  function SignaturesOf(packets: seq<Packet>, primary: Packet -> Option<Signature>): seq<Signature> {
    if packets == [] then []
    else
      var rest := SignaturesOf(packets[..|packets| - 1], primary);
      var s := primary(packets[|packets| - 1]);
      if s.Some? then rest + [s.value] else rest
  }

  /** Every packet with a signature contributes it, in order, and no other packet does. */
  lemma SignaturesOne(p: Packet, primary: Packet -> Option<Signature>)
    ensures SignaturesOf([p], primary) == match primary(p) { case Some(x) => [x] case None => [] }
  {
    assert [p][..0] == [];
  }

  lemma {:induction false} SignaturesAdd(a: seq<Packet>, b: seq<Packet>, primary: Packet -> Option<Signature>)
    ensures SignaturesOf(a + b, primary) == SignaturesOf(a, primary) + SignaturesOf(b, primary)
    decreases |b|
  {
    if b == [] {
      assert a + b == a;
    } else {
      SignaturesAdd(a, b[..|b| - 1], primary);
      assert (a + b)[..|a + b| - 1] == a + b[..|b| - 1];
    }
  }

  lemma {:induction false} SignatureMember(packets: seq<Packet>, primary: Packet -> Option<Signature>, x: Signature)
    ensures x in SignaturesOf(packets, primary) <==> exists p :: p in packets && primary(p) == Some(x)
  {
    if packets != [] {
      var init, last := packets[..|packets| - 1], packets[|packets| - 1];
      SignatureMember(init, primary, x);
      InitLast(packets);
      if primary(last) == Some(x) {
        assert last in packets;
      }
    }
  }
}
