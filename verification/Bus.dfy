/**
 * The pub/sub broker as the core sees it: a log of everything published,
 * the atomic integer counters (`SET` / `INCR`), and the set of progress
 * channels the master's waiting connection is subscribed to.  Each
 * operation's frame names the one field it changes.  Delivery,
 * connections and key expiry are not part of this model.
 */
module Bus {
  import opened Wire

  class Broker {
    var published: seq<Publication>
    var counters: map<string, int>
    var subscriptions: set<string>

    constructor ()
      ensures published == [] && counters == map[] && subscriptions == {}
    {
      published := [];
      counters := map[];
      subscriptions := {};
    }

    /** The value `INCR` starts from: a missing key reads as 0. */
    function Counter(key: string): int
      reads this
    {
      if key in counters then counters[key] else 0
    }

    method Publish(channel: string, message: Message)
      modifies this`published
      ensures published == old(published) + [Publication(channel, message)]
    {
      published := published + [Publication(channel, message)];
    }

    /** Atomic increment; returns the value after the increment. */
    method Incr(key: string) returns (v: int)
      modifies this`counters
      ensures v == old(Counter(key)) + 1
      ensures counters == old(counters)[key := v]
    {
      v := Counter(key) + 1;
      counters := counters[key := v];
    }

    method Set(key: string, v: int)
      modifies this`counters
      ensures counters == old(counters)[key := v]
    {
      counters := counters[key := v];
    }

    method Subscribe(channel: string)
      modifies this`subscriptions
      ensures subscriptions == old(subscriptions) + {channel}
    {
      subscriptions := subscriptions + {channel};
    }

    method Unsubscribe(channel: string)
      modifies this`subscriptions
      ensures subscriptions == old(subscriptions) - {channel}
    {
      subscriptions := subscriptions - {channel};
    }
  }
}
