/** What validators see, in every run of a forwarding lane. */
module ForwardingTheorems {
  import opened Common
  import opened Forwarding

  // ----- order -----

  lemma ItemsAreDistinct<T>(made: map<Producer, seq<Receipt<T>>>, p: Producer)
    ensures Distinct(ItemsOf(made, p))
  {
    var items := ItemsOf(made, p);
    assert forall k :: 0 <= k < |items| ==> items[k].number == k;
  }

  lemma StreamWithinPassed<T>(s: Lane<T>, u: string)
    requires SubsOk(s.subs, s.uuids, s.passed, s.phase) && u in s.subs
    ensures Subsequence(s.subs[u].stream.sent, s.passed)
  {
    var sub, reached := s.subs[u], Reached(s.passed, s.phase.Waits(u));
    assert SubOk(sub, reached);
    SubsequenceSuffix(reached, sub.since);
    SubsequenceTrans(sub.stream.sent, reached[sub.since..], reached);
    SubsequencePrefix(reached, s.passed);
    SubsequenceTrans(sub.stream.sent, reached, s.passed);
  }

  /** Of one producer, a stream shows an in-order part of what went into the channel. */
  lemma StreamWithinChannel<T>(s: Lane<T>, u: string, p: Producer)
    requires SubsOk(s.subs, s.uuids, s.passed, s.phase) && Counted(s) && u in s.subs
    ensures Subsequence(From(s.subs[u].stream.sent, p), From(s.dequeued + s.queue, p))
  {
    var sent := s.subs[u].stream.sent;
    StreamWithinPassed(s, u);
    SubsequenceTrans(sent, s.passed, s.dequeued);
    SubsequenceFilter(sent, s.dequeued, FromTest(p));
    FilterAppend(s.dequeued, s.queue, FromTest(p));
    SubsequencePrefix(From(s.dequeued, p), From(s.dequeued + s.queue, p));
    SubsequenceTrans(From(sent, p), From(s.dequeued, p), From(s.dequeued + s.queue, p));
  }

  lemma ChannelWithinMade<T(!new)>(s: Lane<T>, p: Producer)
    requires ChannelOk(s.made, s.dequeued + s.queue, s.pending)
    ensures Subsequence(From(s.dequeued + s.queue, p), ItemsOf(s.made, p))
  {
    var channel := From(s.dequeued + s.queue, p);
    assert channel + PendingOf(s.pending, p) == ItemsOf(s.made, p);
    SubsequencePrefix(channel, ItemsOf(s.made, p));
  }

  lemma StreamInOrder<T(!new)>(s: Lane<T>, u: string, p: Producer)
    requires Inv(s) && u in s.subs
    ensures Subsequence(From(s.subs[u].stream.sent, p), ItemsOf(s.made, p))
  {
    StreamWithinChannel(s, u, p);
    ChannelWithinMade(s, p);
    SubsequenceTrans(From(s.subs[u].stream.sent, p), From(s.dequeued + s.queue, p), ItemsOf(s.made, p));
  }

  /** Each stream, restricted to one producer, is an in-order part of what that producer
      sent, without repetition. */
  lemma ForwarderOrder<T(!new)>(t: Trace<T>, i: nat, u: string, p: Producer)
    requires t.IsRun() && i < |t.states| && u in t.states[i].subs
    ensures Subsequence(From(t.states[i].subs[u].stream.sent, p), ItemsOf(t.states[i].made, p))
    ensures Distinct(From(t.states[i].subs[u].stream.sent, p))
  {
    RunInv(t, i);
    StreamInOrder(t.states[i], u, p);
    ItemsAreDistinct(t.states[i].made, p);
    SubsequenceDistinct(From(t.states[i].subs[u].stream.sent, p), ItemsOf(t.states[i].made, p));
  }

  /** Nothing a producer sent is lost or duplicated on its way through the channel. */
  lemma ChannelConservation<T(!new)>(t: Trace<T>, i: nat, p: Producer)
    requires t.IsRun() && i < |t.states|
    ensures var s := t.states[i];
      From(s.dequeued, p) + From(s.queue, p) + PendingOf(s.pending, p) == ItemsOf(s.made, p)
  {
    RunInv(t, i);
    var s := t.states[i];
    FilterAppend(s.dequeued, s.queue, FromTest(p));
    assert From(s.dequeued + s.queue, p) + PendingOf(s.pending, p) == ItemsOf(s.made, p);
  }

  // ----- leaders only -----

  /** A stream grows by the item in hand, exactly when its subscriber is offered it, the
      identity leads at that moment (or there is no tracker), and it is open and not full. */
  lemma GrowthIsGated<T>(s: Lane<T>, step: Step<T>, u: string)
    requires Enabled(s, step) && u in s.subs && u in Next(s, step).subs && u in s.uuids
    ensures var sub, sub' := s.subs[u], Next(s, step).subs[u];
      && (sub'.stream.sent != sub.stream.sent
          <==> && step == Offer(u) && (s.upcoming.None? || sub.identity in s.upcoming.value)
               && sub.stream.open && |sub.stream.sent| - sub.stream.read < 1000)
      && (sub'.stream.sent != sub.stream.sent ==> sub'.stream.sent == sub.stream.sent + [s.phase.item])
      && sub'.identity == sub.identity
  {
    if step == Offer(u) {
      var grown := s.subs[u].stream.sent + [s.phase.item];
      assert |grown| == |s.subs[u].stream.sent| + 1;
    }
  }

  /** Only a subscriber whose stream is closed is ever removed. */
  lemma OnlyClosedRemoved<T(!new)>(t: Trace<T>, k: nat, u: string)
    requires t.IsRun() && k < |t.steps| && u in t.states[k].subs && u !in t.states[k + 1].subs
    ensures t.steps[k] == Remove(u) && !t.states[k].subs[u].stream.open
  {
    RunInv(t, k);
    var s := t.states[k];
    assert t.states[k + 1] == Next(s, t.steps[k]);
    RemovedByRemove(s, t.steps[k], u);
    assert u in s.phase.Failed();
  }

  lemma RemovedByRemove<T>(s: Lane<T>, step: Step<T>, u: string)
    requires Enabled(s, step) && u in s.subs && u !in Next(s, step).subs
    ensures step == Remove(u)
  {
  }

  /** Every item on a stream was put there by an offer, at a moment when its subscriber
      was an upcoming leader or no tracker was configured. */
  lemma {:induction false} OfferedWhileLeading<T(!new)>(t: Trace<T>, i: nat, u: string, x: Item<T>) returns (k: nat)
    requires t.IsRun() && i < |t.states| && u in t.states[i].subs && x in t.states[i].subs[u].stream.sent
    ensures k < i && t.steps[k] == Offer(u) && u in t.states[k].subs
    ensures t.states[k].phase.Offering? && t.states[k].phase.item == x
    ensures t.states[k].upcoming.None? || t.states[i].subs[u].identity in t.states[k].upcoming.value
  {
    assert i > 0;
    var j := i - 1;
    var s, step := t.states[j], t.steps[j];
    assert t.states[j + 1] == Next(s, step);
    RunInv(t, j);
    SubscribedBefore(s, step, u, x);
    GrowthIsGated(s, step, u);
    if x in s.subs[u].stream.sent {
      k := OfferedWhileLeading(t, j, u, x);
    } else {
      k := j;
    }
  }

  /** A stream with something on it did not begin with this step. */
  lemma SubscribedBefore<T(!new)>(s: Lane<T>, step: Step<T>, u: string, x: Item<T>)
    requires Enabled(s, step) && SubsOk(s.subs, s.uuids, s.passed, s.phase)
    requires u in Next(s, step).subs && x in Next(s, step).subs[u].stream.sent
    ensures u in s.subs && u in s.uuids
  {
  }

  // ----- expiry -----

  /** Where an item came from and when it passed the forwarder's check. */
  lemma {:induction false} PassedOnce<T(!new)>(t: Trace<T>, i: nat, x: Item<T>) returns (k: nat)
    requires t.IsRun() && i < |t.states| && x in t.states[i].passed
    ensures k < i && t.steps[k] == Dequeue && t.states[k].queue != [] && t.states[k].queue[0] == x
    ensures !x.Expired(t.states[k].now)
  {
    assert i > 0;
    var j := i - 1;
    assert t.states[j + 1] == Next(t.states[j], t.steps[j]);
    if x in t.states[j].passed {
      k := PassedOnce(t, j, x);
    } else {
      PassedNow(t.states[j], t.steps[j], x);
      k := j;
    }
  }

  lemma PassedNow<T>(s: Lane<T>, step: Step<T>, x: Item<T>)
    requires Enabled(s, step) && x !in s.passed && x in Next(s, step).passed
    ensures step == Dequeue && s.queue[0] == x && !x.Expired(s.now)
  {
  }

  lemma HasReceipt<T(!new)>(s: Lane<T>, x: Item<T>)
    requires ChannelOk(s.made, s.dequeued + s.queue, s.pending) && x in s.dequeued + s.queue
    ensures x.number < |MadeBy(s.made, x.producer)|
    ensures x == ItemOf(x.producer, x.number, MadeBy(s.made, x.producer)[x.number])
  {
    var p := x.producer;
    FilterMember(s.dequeued + s.queue, FromTest(p), x);
    assert From(s.dequeued + s.queue, p) + PendingOf(s.pending, p) == ItemsOf(s.made, p);
    assert x in ItemsOf(s.made, p);
  }

  /** Expiry, end to end: whatever is on a stream was received by its producer with some
      window and passed the forwarder's check no later than that window allows; a window
      of zero never expires. */
  lemma ExpiryEndToEnd<T(!new)>(t: Trace<T>, i: nat, u: string, x: Item<T>) returns (k: nat, r: Receipt<T>)
    requires t.IsRun() && i < |t.states| && u in t.states[i].subs && x in t.states[i].subs[u].stream.sent
    ensures x.number < |MadeBy(t.states[i].made, x.producer)| && r == MadeBy(t.states[i].made, x.producer)[x.number]
    ensures x.payload == r.payload
    ensures k < i && t.steps[k] == Dequeue && t.states[k].queue != [] && t.states[k].queue[0] == x
    ensures r.expiry == 0 || t.states[k].now <= r.at + r.expiry
  {
    RunInv(t, i);
    var s := t.states[i];
    StreamWithinPassed(s, u);
    SubsequenceMember(s.subs[u].stream.sent, s.passed, x);
    SubsequenceMember(s.passed, s.dequeued, x);
    k := PassedOnce(t, i, x);
    HasReceipt(s, x);
    r := MadeBy(s.made, x.producer)[x.number];
  }

  /** Every dequeued item is counted exactly once, as expired exactly when its window has
      elapsed and as forwarded otherwise. */
  lemma EachItemCounted<T(!new)>(t: Trace<T>, k: nat)
    requires t.IsRun() && k < |t.steps| && t.steps[k] == Dequeue
    ensures t.states[k].queue != []
    ensures var s, s', x := t.states[k], t.states[k + 1], t.states[k].queue[0];
      && x.number < |MadeBy(s.made, x.producer)|
      && var r := MadeBy(s.made, x.producer)[x.number];
         var late := r.expiry != 0 && s.now > r.at + r.expiry;
         && s'.expired == s.expired + (if late then 1 else 0)
         && s'.forwarded == s.forwarded + (if late then 0 else 1)
         && s'.passed == (if late then s.passed else s.passed + [x])
    ensures |t.states[k + 1].dequeued| == t.states[k + 1].expired + t.states[k + 1].forwarded
  {
    RunInv(t, k);
    RunInv(t, k + 1);
    var s := t.states[k];
    assert t.states[k + 1] == Next(s, t.steps[k]);
    HasReceipt(s, s.queue[0]);
  }

  // ----- origins -----

  lemma SubscriptionBefore<T>(s: Lane<T>, step: Step<T>, u: string)
    requires Enabled(s, step) && u in Next(s, step).subs
    ensures (u in s.subs && s.subs[u].identity == Next(s, step).subs[u].identity)
         || (step.Subscribe? && step.uuid == u && step.identity == Next(s, step).subs[u].identity)
  {
  }

  /** In every run: a subscription stands for the identity that asked for it. */
  lemma {:induction false} SubscriptionOrigin<T(!new)>(t: Trace<T>, i: nat, u: string) returns (k: nat)
    requires t.IsRun() && i < |t.states| && u in t.states[i].subs
    ensures k < i && k < |t.steps| && t.steps[k] == Subscribe(u, t.states[i].subs[u].identity)
  {
    assert i > 0;
    assert t.states[i - 1 + 1] == Next(t.states[i - 1], t.steps[i - 1]);
    SubscriptionBefore(t.states[i - 1], t.steps[i - 1], u);
    if u in t.states[i - 1].subs && t.states[i - 1].subs[u].identity == t.states[i].subs[u].identity {
      k := SubscriptionOrigin(t, i - 1, u);
    } else {
      k := i - 1;
    }
  }

  lemma ReceiptBefore<T>(s: Lane<T>, step: Step<T>, p: Producer, n: nat)
    requires Enabled(s, step) && n < |MadeBy(Next(s, step).made, p)|
    ensures var r := MadeBy(Next(s, step).made, p)[n];
      || (n < |MadeBy(s.made, p)| && MadeBy(s.made, p)[n] == r)
      || (step.Receive? && step.producer == p && step.payload == r.payload && step.expiry == r.expiry && r.at == s.now)
  {
  }

  /** In every run: a receipt records what its producer took in, with its expiry window, at
      the time it came in. */
  lemma {:induction false} ReceiptOrigin<T(!new)>(t: Trace<T>, i: nat, p: Producer, n: nat) returns (k: nat)
    requires t.IsRun() && i < |t.states| && n < |MadeBy(t.states[i].made, p)|
    ensures var r := MadeBy(t.states[i].made, p)[n];
      k < i && k < |t.steps| && t.steps[k] == Receive(p, r.payload, r.expiry) && r.at == t.states[k].now
  {
    assert i > 0;
    assert t.states[i - 1 + 1] == Next(t.states[i - 1], t.steps[i - 1]);
    ReceiptBefore(t.states[i - 1], t.steps[i - 1], p, n);
    var before := MadeBy(t.states[i - 1].made, p);
    if n < |before| && before[n] == MadeBy(t.states[i].made, p)[n] {
      k := ReceiptOrigin(t, i - 1, p, n);
    } else {
      k := i - 1;
    }
  }
}
