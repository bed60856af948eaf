/** The hub that routes results to the searcher that submitted a bundle. */
module HubSpec {
  import opened Common
  import opened Bundles

  /** Result streams are opened with room for this many undelivered messages. */
  const STREAM_CAPACITY: nat := 256

  datatype Message = Message(bundleId: string, result: ResultKind)

  /** One result stream: everything ever queued, how much of it the searcher has read,
      and whether the searcher still holds the receiving end. */
  datatype Channel = Channel(sent: seq<Message>, read: nat, open: bool) {
    predicate Full() { |sent| >= read + STREAM_CAPACITY }

    /** `try_send`, for a stream that is not closed: a full stream loses the message. */
    function Offer(m: Message): Channel {
      if Full() then this else this.(sent := sent + [m])
    }
  }

  datatype Owner = Owner(pubkey: string, registeredAt: nat)

  datatype Hub = Hub(owners: map<string, Owner>, subscribers: map<string, seq<Channel>>)

  function StreamsOf(subs: map<string, seq<Channel>>, owner: string): seq<Channel> {
    if owner in subs then subs[owner] else []
  }

  // ----- the operations on values -----

  function Register(h: Hub, uuid: string, owner: string, now: nat): Hub {
    h.(owners := h.owners[uuid := Owner(owner, now)])
  }

  function AddSubscriber(h: Hub, owner: string): Hub {
    h.(subscribers := h.subscribers[owner := StreamsOf(h.subscribers, owner) + [Channel([], 0, true)]])
  }

  function Prune(h: Hub, ttl: nat, now: nat): Hub {
    h.(owners := map u | u in h.owners && SatSub(now, h.owners[u].registeredAt) < ttl :: h.owners[u])
  }

  /** First critical section of `publish`: find the owner, consuming the mapping when the
      result is terminal. */
  function Resolve(h: Hub, p: Publication): (Hub, Option<string>) {
    if p.uuid !in h.owners then (h, None)
    else (if p.kind.Terminal() then h.(owners := h.owners - {p.uuid}) else h,
          Some(h.owners[p.uuid].pubkey))
  }

  /** `retain` over the senders: closed streams go, the others are offered the message. */
  function Retain(senders: seq<Channel>, m: Message): seq<Channel> {
    if senders == [] then []
    else if senders[0].open then [senders[0].Offer(m)] + Retain(senders[1..], m)
    else Retain(senders[1..], m)
  }

  /** Second critical section of `publish`. */
  function Deliver(h: Hub, owner: string, m: Message): Hub {
    if owner !in h.subscribers then h
    else
      var kept := Retain(h.subscribers[owner], m);
      h.(subscribers := if kept == [] then h.subscribers - {owner} else h.subscribers[owner := kept])
  }

  function Publish(h: Hub, p: Publication): Hub {
    var (h', owner) := Resolve(h, p);
    if owner.None? then h' else Deliver(h', owner.value, Message(p.uuid, p.kind))
  }

  function PublishAll(h: Hub, ps: seq<Publication>): Hub {
    if ps == [] then h else Publish(PublishAll(h, ps[..|ps| - 1]), ps[|ps| - 1])
  }

  // ----- delivery -----

  function OpenTest(): Channel -> bool { (c: Channel) => c.open }

  /** Exactly the closed streams are removed; every other stream keeps its place and is
      offered the message once. */
  lemma {:induction false} RetainOffersOnce(senders: seq<Channel>, m: Message)
    ensures var open, kept := Filter(senders, OpenTest()), Retain(senders, m);
      |kept| == |open| && forall i :: 0 <= i < |kept| ==> kept[i] == open[i].Offer(m)
  {
    if senders != [] {
      RetainOffersOnce(senders[1..], m);
    }
  }

  lemma {:induction false} RetainMember(senders: seq<Channel>, m: Message, c: Channel) returns (before: Channel)
    requires c in Retain(senders, m)
    ensures before in senders && before.open && c == before.Offer(m)
  {
    if senders[0].open && c == senders[0].Offer(m) {
      before := senders[0];
    } else {
      before := RetainMember(senders[1..], m, c);
    }
  }

  /** A publication reaches only its owner's streams; an owner disappears from the
      subscriber table only when all of its streams were closed. */
  lemma DeliveryRouting(h: Hub, owner: string, m: Message, other: string)
    ensures var subs := Deliver(h, owner, m).subscribers;
      && Deliver(h, owner, m).owners == h.owners
      && (other != owner ==> StreamsOf(subs, other) == StreamsOf(h.subscribers, other))
      && StreamsOf(subs, owner) == Retain(StreamsOf(h.subscribers, owner), m)
      && (owner in h.subscribers && owner !in subs ==> Filter(h.subscribers[owner], OpenTest()) == [])
  {
    if owner in h.subscribers {
      RetainOffersOnce(h.subscribers[owner], m);
    }
  }

  /** Accepted and processed leave the owner on record; every other result takes it off. */
  lemma OwnersAfter(h: Hub, p: Publication)
    ensures Publish(h, p).owners
         == if p.kind.Accepted? || p.kind.Processed? then h.owners else h.owners - {p.uuid}
  {
    var (h', owner) := Resolve(h, p);
    if owner.Some? {
      DeliveryRouting(h', owner.value, Message(p.uuid, p.kind), "");
    } else {
      assert h.owners - {p.uuid} == h.owners;
    }
  }

  /** Without an owner on record a publication changes nothing. */
  lemma NobodyToTell(h: Hub, p: Publication)
    requires p.uuid !in h.owners
    ensures Publish(h, p) == h
  {
  }

  /** What a stream holds after one more message for it: the bundle's own uuid with the
      result, unless 256 messages are still unread. */
  ghost predicate Told(before: Channel, after: Channel, uuid: string, kind: ResultKind) {
    && after.read == before.read && after.open == before.open
    && (|before.sent| - before.read < 256 ==>
          && |after.sent| == |before.sent| + 1 && after.sent[..|before.sent|] == before.sent
          && after.sent[|before.sent|].bundleId == uuid && after.sent[|before.sent|].result == kind)
    && (|before.sent| - before.read >= 256 ==> after.sent == before.sent)
  }

  /** A publication tells every open stream of the bundle's owner, once and in its place
      among the open ones, and touches no other owner's streams. */
  lemma PublishTells(h: Hub, p: Publication, other: string)
    requires p.uuid in h.owners
    ensures var owner, h' := h.owners[p.uuid].pubkey, Publish(h, p);
      var open, kept := Filter(StreamsOf(h.subscribers, owner), OpenTest()), StreamsOf(h'.subscribers, owner);
      && |kept| == |open| && (forall i :: 0 <= i < |kept| ==> Told(open[i], kept[i], p.uuid, p.kind))
      && (forall c :: c in open <==> c in StreamsOf(h.subscribers, owner) && c.open)
      && (other != owner ==> StreamsOf(h'.subscribers, other) == StreamsOf(h.subscribers, other))
  {
    var owner := h.owners[p.uuid].pubkey;
    var (h1, _) := Resolve(h, p);
    var m := Message(p.uuid, p.kind);
    DeliveryRouting(h1, owner, m, other);
    RetainOffersOnce(StreamsOf(h.subscribers, owner), m);
    forall c ensures c in Filter(StreamsOf(h.subscribers, owner), OpenTest())
                     <==> c in StreamsOf(h.subscribers, owner) && c.open {
      FilterMember(StreamsOf(h.subscribers, owner), OpenTest(), c);
    }
  }

  /** Pruning evicts exactly the owners registered `ttl` ago or earlier. */
  lemma PruneExactly(h: Hub, ttl: nat, now: nat, u: string)
    ensures u in Prune(h, ttl, now).owners
       <==> u in h.owners && ttl > 0 && now < h.owners[u].registeredAt + ttl
    ensures u in Prune(h, ttl, now).owners ==> Prune(h, ttl, now).owners[u] == h.owners[u]
    ensures Prune(h, ttl, now).subscribers == h.subscribers
  {
  }

  /** A registered bundle belongs to its searcher until it is `ttl` old. */
  lemma RegisteredUntil(h: Hub, u: string, owner: string, now: nat, ttl: nat, later: nat)
    ensures var owners := Prune(Register(h, u, owner, now), ttl, later).owners;
      (u in owners <==> ttl > 0 && later < now + ttl) && (u in owners ==> owners[u].pubkey == owner)
  {
    PruneExactly(Register(h, u, owner, now), ttl, later, u);
  }

  /** After a terminal result nothing more is delivered for that bundle, until somebody
      registers the uuid again. */
  lemma TerminalIsFinal(h: Hub, p: Publication, q: Publication)
    requires p.kind.Terminal() && q.uuid == p.uuid
    ensures Publish(Publish(h, p), q) == Publish(h, p)
  {
    var (h', owner) := Resolve(h, p);
    if owner.Some? {
      DeliveryRouting(h', owner.value, Message(p.uuid, p.kind), "");
    }
  }
}
