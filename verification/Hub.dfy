/** Wake-ups for subscribers to a session, or to the whole log. */
module Hub {

  type SessionId = string

  /** A wake-up channel of capacity one: it is armed or it is not. */
  class Subscription {
    const session: SessionId
    const all: bool
    var armed: bool

    constructor (session: SessionId, all: bool)
      ensures this.session == session && this.all == all && !armed
    {
      this.session, this.all := session, all;
      armed := false;
    }

    method Signal()
      modifies `armed
      ensures armed
    {
      if !armed {
        armed := true;
      }
    }
  }

  class Hub {
    var subscribers: map<SessionId, set<Subscription>>
    var everything: set<Subscription>

    /** Every subscription is filed under what it watches, and no session is kept without one. */
    ghost predicate Valid()
      reads this
    {
      && (forall id :: id in subscribers ==> subscribers[id] != {})
      && (forall id :: id in subscribers ==> forall sub :: sub in subscribers[id] ==> !sub.all && sub.session == id)
      && (forall sub :: sub in everything ==> sub.all)
    }

    /** The subscriptions that hear about a session. */
    ghost function Watching(id: SessionId): set<Subscription>
      reads this
    {
      (if id in subscribers then subscribers[id] else {}) + everything
    }

    constructor ()
      ensures Valid() && subscribers == map[] && everything == {}
    {
      subscribers, everything := map[], {};
    }

    method Subscribe(id: SessionId) returns (sub: Subscription)
      requires Valid()
      modifies this
      ensures Valid() && fresh(sub) && sub.armed && !sub.all && sub.session == id
      ensures forall other :: Watching(other) == old(Watching(other)) + (if other == id then {sub} else {})
    {
      sub := new Subscription(id, false);
      var subs := if id in subscribers then subscribers[id] else {};
      subscribers := subscribers[id := subs + {sub}];
      sub.Signal();
    }

    method SubscribeAll() returns (sub: Subscription)
      requires Valid()
      modifies this
      ensures Valid() && fresh(sub) && sub.armed && sub.all
      ensures forall other :: Watching(other) == old(Watching(other)) + {sub}
    {
      sub := new Subscription("", true);
      everything := everything + {sub};
      sub.Signal();
    }

    /** Nobody else stops hearing, and a session nobody watches is forgotten. */
    method Unsubscribe(sub: Subscription)
      requires Valid()
      modifies this
      ensures Valid()
      ensures forall id :: Watching(id) == old(Watching(id)) - {sub}
      ensures !sub.all && old(Watching(sub.session)) == old(everything) + {sub} ==> sub.session !in subscribers
    {
      if sub.all {
        everything := everything - {sub};
        return;
      }
      if sub.session !in subscribers {
        return;
      }
      var subs := subscribers[sub.session] - {sub};
      if subs == {} {
        subscribers := subscribers - {sub.session};
      } else {
        subscribers := subscribers[sub.session := subs];
      }
    }

    /** Arms exactly the subscriptions that watch the session at the moment of the snapshot. */
    method Publish(id: SessionId)
      requires Valid()
      modifies Watching(id)`armed
      ensures forall sub :: sub in Watching(id) ==> sub.armed
    {
      var subs := (if id in subscribers then subscribers[id] else {}) + everything;
      var left := subs;
      while left != {}
        invariant left <= subs
        invariant forall sub :: sub in subs - left ==> sub.armed
        decreases |left|
      {
        var sub :| sub in left;
        sub.Signal();
        left := left - {sub};
      }
    }
  }
}
