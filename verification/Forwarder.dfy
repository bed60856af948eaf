/** The forwarder's loop as an object with a table of subscriptions. */
module Forwarder {
  import opened Common
  import opened Forwarding

  type Table<T> = map<string, Subscription<T>>

  /** The leaders published at the moment a subscription is looked at. The set may change
      between two subscribers; each is looked at once, so this is a function of its id. */
  type Views = string -> Option<set<string>>

  /** One item for everybody: leaders with room get it, leaders whose stream is closed are
      removed, everybody else is left alone. */
  function Served<T>(subs: Table<T>, item: Item<T>, views: Views): Table<T> {
    map u | u in subs && !Fails(subs[u], views(u)) :: Offered(subs[u], item, views(u))
  }

  /** The subscriptions in `order` have been offered the item. */
  function OfferedTo<T>(subs: Table<T>, item: Item<T>, views: Views, order: seq<string>): Table<T> {
    map u | u in subs :: if u in order then Offered(subs[u], item, views(u)) else subs[u]
  }

  /** Iterating a hash map visits every key once, in some order. */
  ghost predicate IteratesOver<T>(order: seq<string>, subs: Table<T>) {
    Distinct(order) && forall u :: u in order <==> u in subs
  }

  class SubscriberTable<T(!new, 0)> {
    var subs: Table<T>
    var expired: nat
    var forwarded: nat

    constructor ()
      ensures subs == map[] && expired == 0 && forwarded == 0
    {
      subs, expired, forwarded := map[], 0, 0;
    }

    method Subscribe(uuid: string, identity: string)
      modifies this`subs
      ensures subs == old(subs)[uuid := Subscription(identity, Stream([], 0, true), forwarded)]
    {
      subs := subs[uuid := Subscription(identity, Stream([], 0, true), forwarded)];
    }

    /** One item from the channel: the expiry check, the offers, the removals. */
    method Handle(item: Item<T>, now: nat, views: Views, order: seq<string>)
      requires IteratesOver(order, subs)
      modifies this
      ensures item.Expired(now) ==>
        subs == old(subs) && expired == old(expired) + 1 && forwarded == old(forwarded)
      ensures !item.Expired(now) ==>
        subs == Served(old(subs), item, views) && expired == old(expired) && forwarded == old(forwarded) + 1
      ensures item.Expired(now) <==> item.deadline.Some? && now > item.deadline.value
    {
      if item.deadline.Some? && now > item.deadline.value {
        expired := expired + 1;
        return;
      }
      forwarded := forwarded + 1;
      var failed := Forward(item, views, order);
      RemoveAll(failed);
    }

    /** Offer the item to every subscription; returns those whose stream is closed. */
    method Forward(item: Item<T>, views: Views, order: seq<string>) returns (failed: seq<string>)
      requires IteratesOver(order, subs)
      modifies this`subs
      ensures subs == OfferedTo(old(subs), item, views, order)
      ensures forall u :: u in failed <==>
        && u in old(subs) && (views(u).None? || old(subs)[u].identity in views(u).value)
        && !old(subs)[u].stream.open
    {
      failed := [];
      for i := 0 to |order|
        invariant subs == OfferedTo(old(subs), item, views, order[..i])
        invariant forall u :: u in failed <==> u in order[..i] && u in old(subs) && Fails(old(subs)[u], views(u))
      {
        var uuid := order[i];
        assert uuid in order && uuid !in order[..i] && order[..i + 1] == order[..i] + [uuid];
        var sub := subs[uuid];
        OfferNext(old(subs), item, views, order[..i], uuid);
        if !ShouldForward(views(uuid), sub.identity) {
          continue;
        }
        if !sub.stream.open {
          failed := failed + [uuid];
        } else if !sub.stream.Full() {
          subs := subs[uuid := sub.(stream := sub.stream.(sent := sub.stream.sent + [item]))];
        }
      }
      assert order[..|order|] == order;
    }

    method RemoveAll(failed: seq<string>)
      modifies this`subs
      ensures subs == map u | u in old(subs) && u !in failed :: old(subs)[u]
    {
      for i := 0 to |failed|
        invariant subs == map u | u in old(subs) && u !in failed[..i] :: old(subs)[u]
      {
        assert failed[..i + 1] == failed[..i] + [failed[i]];
        subs := subs - {failed[i]};
      }
      assert failed[..|failed|] == failed;
    }
  }

  /** Who gets the item and who is removed: of the subscribers that lead when they are
      looked at (all of them, without a tracker), those with an open stream and fewer than
      1000 unread items get it, and those with a closed stream go. */
  lemma ServedExactly<T>(subs: Table<T>, item: Item<T>, views: Views, order: seq<string>, u: string)
    requires u in subs
    ensures var leads := views(u).None? || subs[u].identity in views(u).value;
      var c, after := subs[u].stream, Served(subs, item, views);
      && (u in after <==> !leads || c.open)
      && (u in after ==>
            && after[u].identity == subs[u].identity && after[u].stream.open == c.open && after[u].stream.read == c.read
            && after[u].stream.sent == (if leads && |c.sent| - c.read < 1000 then c.sent + [item] else c.sent))
      && (u in order ==>
            OfferedTo(subs, item, views, order)[u].stream.sent
            == if leads && c.open && |c.sent| - c.read < 1000 then c.sent + [item] else c.sent)
  {
  }

  lemma OfferNext<T>(subs: Table<T>, item: Item<T>, views: Views, done: seq<string>, u: string)
    requires u in subs && u !in done
    ensures OfferedTo(subs, item, views, done)[u] == subs[u]
    ensures OfferedTo(subs, item, views, done + [u])
         == OfferedTo(subs, item, views, done)[u := Offered(subs[u], item, views(u))]
    ensures Offered(subs[u], item, views(u)) == subs[u] ==>
      OfferedTo(subs, item, views, done + [u]) == OfferedTo(subs, item, views, done)
  {
  }

  // ----- the loop is the state machine's round -----

  /** The offers of one round, in the order of an iteration, each under the leaders
      published at that moment. */
  function OfferAll<T>(s: Lane<T>, order: seq<string>, views: Views): Lane<T>
    requires s.phase.Offering? && forall u :: u in order ==> u in s.subs
    ensures var s' := OfferAll(s, order, views); s'.phase.Offering? && s'.subs.Keys == s.subs.Keys
  {
    if order == [] then s
    else
      var s' := OfferAll(s, order[..|order| - 1], views);
      var u := order[|order| - 1];
      OfferStep(s'.(upcoming := views(u)), u)
  }

  lemma {:induction false} OfferAllIsOffered<T>(s: Lane<T>, order: seq<string>, views: Views)
    requires s.phase.Offering? && Distinct(order) && forall u :: u in order ==> u in s.subs
    ensures var s' := OfferAll(s, order, views);
      && s' == s.(subs := s'.subs, phase := s'.phase, upcoming := s'.upcoming)
      && s'.subs == OfferedTo(s.subs, s.phase.item, views, order)
      && s'.phase.item == s.phase.item
      && (forall u :: u in s'.phase.left <==> u in s.phase.left && u !in order)
      && (forall u :: u in s'.phase.failed <==> u in s.phase.failed || (u in order && Fails(s.subs[u], views(u))))
  {
    if order != [] {
      var init, last := order[..|order| - 1], order[|order| - 1];
      OfferAllIsOffered(s, init, views);
      assert last in order && last !in init && order == init + [last];
      OfferNext(s.subs, s.phase.item, views, init, last);
    }
  }

  function RemoveEach<T>(s: Lane<T>, order: seq<string>): Lane<T>
    requires s.phase.Removing?
    ensures RemoveEach(s, order).phase.Removing?
  {
    if order == [] then s else RemoveStep(RemoveEach(s, order[..|order| - 1]), order[|order| - 1])
  }

  lemma {:induction false} RemoveEachRemoves<T>(s: Lane<T>, order: seq<string>)
    requires s.phase.Removing?
    ensures var s' := RemoveEach(s, order);
      && s' == s.(subs := s'.subs, phase := s'.phase)
      && s'.subs == (map u | u in s.subs && u !in order :: s.subs[u])
      && s'.phase.failed == s.phase.failed - (set u | u in order)
  {
    if order != [] {
      var init, last := order[..|order| - 1], order[|order| - 1];
      RemoveEachRemoves(s, init);
      InitLast(order);
    }
  }

  /** Whatever the two iteration orders, and however the leaders change between offers, a
      round of the state machine serves the subscribers as the loop does. */
  lemma RoundIsServed<T>(s: Lane<T>, order: seq<string>, failed: seq<string>, views: Views)
    requires s.phase.Offering? && s.phase.left == s.subs.Keys && s.phase.failed == {}
    requires IteratesOver(order, s.subs)
    requires forall u :: u in failed <==> u in OfferAll(s, order, views).phase.failed
    ensures var offered := OfferAll(s, order, views);
      var removed := RemoveEach(offered.(phase := Removing(offered.phase.failed)), failed);
      && offered.phase.left == {}
      && removed == s.(subs := Served(s.subs, s.phase.item, views), phase := Removing({}), upcoming := offered.upcoming)
  {
    OfferAllIsOffered(s, order, views);
    var offered := OfferAll(s, order, views);
    var r := offered.(phase := Removing(offered.phase.failed));
    RemoveEachRemoves(r, failed);
    var removed := RemoveEach(r, failed);
    assert removed.subs == Served(s.subs, s.phase.item, views);
    assert removed.phase.failed == {};
  }
}
