/** Nobody who follows the log is stuck: from wherever the threads are, some of their steps bring it up to date. */
module CatchingUp {
  import opened EventStore
  import opened Following

  /** The actions lead from one state to the other. */
  ghost predicate Path(s: State, actions: seq<Action>, r: State)
    decreases |actions|
  {
    if actions == [] then r == s
    else Enabled(s, actions[0]) && Path(Do(s, actions[0]), actions[1..], r)
  }

  lemma {:induction false} StepThen(s: State, a: Action, rest: seq<Action>, r: State)
    requires Enabled(s, a) && Path(Do(s, a), rest, r)
    ensures Path(s, [a] + rest, r)
  {
    hide Enabled, Do;
    assert ([a] + rest)[1..] == rest;
  }

  lemma {:induction false} OneStep(s: State, a: Action)
    requires Enabled(s, a)
    ensures Path(s, [a], Do(s, a))
  {
    hide Enabled, Do;
  }

  /** Steps a thread makes by itself: no heartbeat, nothing new, nothing pruned. */
  predicate OnItsOwn(a: Action) {
    a.Publishes? || a.Notifies? || a.Wakes? || a.Fetches? || a.Sends?
  }

  ghost predicate AllOnTheirOwn(actions: seq<Action>) {
    forall i :: 0 <= i < |actions| ==> OnItsOwn(actions[i])
  }

  lemma {:induction false} OneOnItsOwn(a: Action, rest: seq<Action>)
    requires OnItsOwn(a) && AllOnTheirOwn(rest)
    ensures AllOnTheirOwn([a] + rest)
  {
  }

  /** What lies after a point, kept or not. */
  function Ahead(log: seq<Entry>, w: Watch, cursor: nat): set<nat> {
    set n | 1 <= n <= |log| && Shows(log, w, n) && cursor < Pos(log, w, n)
  }

  /** It sleeps, and everything it watches that is kept and lies after its start has been sent. */
  ghost predicate UpToDate(s: State, u: nat) {
    var sub := s.subs(u);
    && sub.phase.Sleeping?
    && forall n :: Shows(s.store.log, sub.watch, n) && n !in s.store.discarded
           && sub.start < Pos(s.store.log, sub.watch, n)
         ==> n in sub.sent
  }

  /** Once it drains, it fetches and sends until there is nothing left. */
  lemma {:induction false} Drains(s: State, u: nat) returns (actions: seq<Action>, r: State)
    requires Inv(s) && (s.subs(u).phase.Draining? || s.subs(u).phase.Sending?)
    ensures Path(s, actions, r) && AllOnTheirOwn(actions) && UpToDate(r, u)
    ensures r.store == s.store && r.subs(u).watch == s.subs(u).watch && r.subs(u).start == s.subs(u).start
    decreases |Ahead(s.store.log, s.subs(u).watch, s.subs(u).cursor)|, s.subs(u).phase.Draining?
  {
    hide Inv, Path, Kept, StoreOk, SentOk, BatchOk;
    var sub := s.subs(u);
    var a := if sub.phase.Draining? then Fetches(u) else Sends(u);
    var now := Do(s, a);
    StepOk(s, a);
    if sub.phase.Draining? && now.subs(u).phase.Sleeping? {
      actions, r := [a], now;
      OneStep(s, a);
      NothingUnsent(now, u);
    } else {
      if sub.phase.Sending? {
        FewerAhead(s, u);
      }
      var rest;
      rest, r := Drains(now, u);
      actions := [a] + rest;
      StepThen(s, a, rest, r);
      OneOnItsOwn(a, rest);
    }
  }

  lemma {:induction false} NoMoreSteps(s: State)
    ensures Path(s, [], s)
  {
  }

  lemma {:induction false} FewerAhead(s: State, u: nat)
    requires Inv(s) && s.subs(u).phase.Sending?
    ensures var log, w, now := s.store.log, s.subs(u).watch, Do(s, Sends(u)).subs(u);
            && now.watch == w && Do(s, Sends(u)).store == s.store
            && |Ahead(log, w, now.cursor)| < |Ahead(log, w, s.subs(u).cursor)|
  {
    hide StoreOk, SentOk;
    var log, sub := s.store.log, s.subs(u);
    assert SubscriberOk(s, u);
    var n := sub.phase.next;
    assert n in [n] + sub.phase.rest;
    var before, after := Ahead(log, sub.watch, sub.cursor), Ahead(log, sub.watch, Pos(log, sub.watch, n));
    assert n in before && n !in after && after <= before;
    SmallerSet(after, before, n);
  }

  lemma {:induction false} SmallerSet(a: set<nat>, b: set<nat>, x: nat)
    requires a <= b && x in b && x !in a
    ensures |a| < |b|
  {
    Subset(a, b - {x});
  }

  lemma {:induction false} Subset(a: set<nat>, b: set<nat>)
    requires a <= b
    ensures |a| <= |b|
  {
    if a != {} {
      var x :| x in a;
      Subset(a - {x}, b - {x});
    }
  }

  /** Asleep after a fetch that found nothing. */
  lemma {:induction false} NothingUnsent(s: State, u: nat)
    requires Inv(s) && s.subs(u).phase.Sleeping? && ListAfter(s.store, s.subs(u).watch, s.subs(u).cursor) == []
    ensures UpToDate(s, u)
  {
    hide Kept;
    var sub, log := s.subs(u), s.store.log;
    assert SubscriberOk(s, u);
    forall n | Shows(log, sub.watch, n) && n !in s.store.discarded && sub.start < Pos(log, sub.watch, n)
      ensures n in sub.sent
    {
      KeptAre(s.store, sub.watch, sub.cursor, |log|, n);
      assert Between(log, sub.watch, sub.start, sub.cursor, n);
    }
  }

  /** Whoever owes the subscriber a signal can give it. */
  lemma {:induction false} GetsSignalled(s: State, u: nat, session: SessionId) returns (actions: seq<Action>, r: State)
    requires Inv(s) && s.subs(u).phase.Sleeping? && Owed(s, u, session) && Watches(s.subs(u).watch, session)
    ensures Path(s, actions, r) && AllOnTheirOwn(actions) && Inv(r)
    ensures r.store == s.store && r.subs(u) == s.subs(u).(armed := true)
  {
    hide Inv, Path;
    assert u in s.registered by {
      Registered(s, u);
    }
    if p: nat :| s.pubs(p) == Owes(session) {
      var now := Do(s, Publishes(p));
      var left := set v | v in s.registered && Watches(s.subs(v).watch, session);
      assert u in left;
      assert now.pubs(p).Signals? && u in now.pubs(p).left;
      StepOk(s, Publishes(p));
      r := Do(now, Notifies(p, u));
      StepOk(now, Notifies(p, u));
      OneStep(now, Notifies(p, u));
      StepThen(s, Publishes(p), [Notifies(p, u)], r);
      actions := [Publishes(p)] + [Notifies(p, u)];
    } else {
      var p: nat :| s.pubs(p).Signals? && u in s.pubs(p).left;
      r := Do(s, Notifies(p, u));
      StepOk(s, Notifies(p, u));
      OneStep(s, Notifies(p, u));
      actions := [Notifies(p, u)];
    }
  }

  lemma {:induction false} Registered(s: State, u: nat)
    requires Inv(s) && s.subs(u).phase.Sleeping?
    ensures u in s.registered && WillWake(s, u)
  {
    assert SubscriberOk(s, u);
  }

  lemma {:induction false} PathThen(s: State, first: seq<Action>, m: State, second: seq<Action>, r: State)
    requires Path(s, first, m) && Path(m, second, r)
    ensures Path(s, first + second, r)
    decreases |first|
  {
    hide Enabled, Do;
    if first == [] {
      assert first + second == second;
    } else {
      PathThen(Do(s, first[0]), first[1..], m, second, r);
      assert (first + second)[1..] == first[1..] + second;
    }
  }

  /** A subscriber that is past the check is brought up to date by steps that it and the publishers make of
      themselves: it needs neither the heartbeat nor anything new. */
  lemma {:induction false} CatchesUp(s: State, u: nat) returns (actions: seq<Action>, r: State)
    requires Inv(s) && Reading(s.subs(u).phase)
    ensures Path(s, actions, r) && AllOnTheirOwn(actions) && UpToDate(r, u)
    ensures r.store == s.store && r.subs(u).watch == s.subs(u).watch && r.subs(u).start == s.subs(u).start
  {
    hide Inv, Path, Do, Enabled, UpToDate;
    if !s.subs(u).phase.Sleeping? {
      actions, r := Drains(s, u);
    } else if s.subs(u).armed {
      actions, r := WakesAndDrains(s, u);
    } else if exists n :: Unread(s, u, n) {
      var n: nat :| Unread(s, u, n);
      Registered(s, u);
      var first, m := GetsSignalled(s, u, s.store.log[n - 1].session);
      var rest;
      rest, r := WakesAndDrains(m, u);
      PathThen(s, first, m, rest, r);
      actions := first + rest;
    } else {
      actions, r := [], s;
      NoMoreSteps(s);
      NothingUnread(s, u);
    }
  }

  ghost predicate Unread(s: State, u: nat, n: nat) {
    Shows(s.store.log, s.subs(u).watch, n) && n !in s.store.discarded
    && s.subs(u).cursor < Pos(s.store.log, s.subs(u).watch, n)
  }

  lemma {:induction false} NothingUnread(s: State, u: nat)
    requires Inv(s) && s.subs(u).phase.Sleeping? && !exists n :: Unread(s, u, n)
    ensures UpToDate(s, u)
  {
    var sub, log := s.subs(u), s.store.log;
    assert SubscriberOk(s, u);
    forall n | Shows(log, sub.watch, n) && n !in s.store.discarded && sub.start < Pos(log, sub.watch, n)
      ensures n in sub.sent
    {
      assert !Unread(s, u, n);
      assert Between(log, sub.watch, sub.start, sub.cursor, n);
    }
  }

  lemma {:induction false} WakesAndDrains(s: State, u: nat) returns (actions: seq<Action>, r: State)
    requires Inv(s) && s.subs(u).phase.Sleeping? && s.subs(u).armed
    ensures Path(s, actions, r) && AllOnTheirOwn(actions) && UpToDate(r, u)
    ensures r.store == s.store && r.subs(u).watch == s.subs(u).watch && r.subs(u).start == s.subs(u).start
  {
    hide Inv, Path, UpToDate;
    StepOk(s, Wakes(u));
    var rest;
    rest, r := Drains(Do(s, Wakes(u)), u);
    StepThen(s, Wakes(u), rest, r);
    OneOnItsOwn(Wakes(u), rest);
    actions := [Wakes(u)] + rest;
  }

  /** A publisher signals everybody in its snapshot and is done. */
  lemma {:induction false} PublisherFinishes(s: State, p: nat) returns (actions: seq<Action>, r: State)
    requires s.pubs(p).Owes? || (s.pubs(p).Signals? && s.pubs(p).left != {})
    ensures Path(s, actions, r) && r.pubs(p).Quiet? && r.store == s.store
    ensures forall i :: 0 <= i < |actions| ==> actions[i] == Publishes(p) || (actions[i].Notifies? && actions[i].p == p)
    decreases s.pubs(p).Owes?, if s.pubs(p).Signals? then |s.pubs(p).left| else 0
  {
    hide Path;
    var a := Publishes(p);
    if s.pubs(p).Signals? {
      var u :| u in s.pubs(p).left;
      a := Notifies(p, u);
    }
    var now := Do(s, a);
    if now.pubs(p).Quiet? {
      r := now;
      OneStep(s, a);
      actions := [a];
    } else {
      var rest;
      rest, r := PublisherFinishes(now, p);
      StepThen(s, a, rest, r);
      actions := [a] + rest;
    }
  }
}
