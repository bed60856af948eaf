/** The results hub as the shared object that the auction and the tracker publish to. */
module Results {
  import opened Common
  import opened Bundles
  import opened HubSpec

  class BundleResults {
    var owners: map<string, Owner>
    var subscribers: map<string, seq<Channel>>

    ghost function Value(): Hub
      reads this
    {
      Hub(owners, subscribers)
    }

    constructor ()
      ensures Value() == Hub(map[], map[])
    {
      owners, subscribers := map[], map[];
    }

    method Register(uuid: string, owner: string, now: nat)
      modifies this
      ensures Value() == HubSpec.Register(old(Value()), uuid, owner, now)
    {
      owners := owners[uuid := Owner(owner, now)];
    }

    method AddSubscriber(owner: string)
      modifies this
      ensures Value() == HubSpec.AddSubscriber(old(Value()), owner)
    {
      var senders := if owner in subscribers then subscribers[owner] else [];
      subscribers := subscribers[owner := senders + [Channel([], 0, true)]];
    }

    method Prune(ttl: nat, now: nat)
      modifies this
      ensures Value() == HubSpec.Prune(old(Value()), ttl, now)
    {
      owners := map u | u in owners && SatSub(now, owners[u].registeredAt) < ttl :: owners[u];
    }

    method Publish(p: Publication)
      modifies this
      ensures Value() == HubSpec.Publish(old(Value()), p)
    {
      if p.uuid !in owners {
        return;
      }
      var owner := owners[p.uuid].pubkey;
      if p.kind.Terminal() {
        owners := owners - {p.uuid};
      }
      if owner in subscribers {
        var senders := subscribers[owner];
        var kept: seq<Channel> := [];
        for i := 0 to |senders|
          invariant kept + Retain(senders[i..], Message(p.uuid, p.kind)) == Retain(senders, Message(p.uuid, p.kind))
        {
          if senders[i].open {
            kept := kept + [senders[i].Offer(Message(p.uuid, p.kind))];
          }
        }
        assert kept == Retain(senders, Message(p.uuid, p.kind));
        if kept == [] {
          subscribers := subscribers - {owner};
        } else {
          subscribers := subscribers[owner := kept];
        }
      }
    }
  }
}
