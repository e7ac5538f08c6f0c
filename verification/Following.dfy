/** Subscribers that follow a log while others append to it and prune it, step by step.

    A publisher appends, then takes a snapshot of who is registered, then signals each of
    them; a subscriber registers, is armed, checks whether it has to start over, then drains
    and sleeps in turns. Any thread may run between two steps.
  */
module Following {
  import opened EventStore

  datatype Phase =
    | Absent
    | Joined
    | Testing
    | Draining
    | Sending(next: nat, rest: seq<nat>)
    | Sleeping
    | Resynced
    | Gone

  /** `sent` is what was sent, by number in the whole log; `lost` is what was discarded before the
      cursor reached it. */
  datatype Subscriber = Subscriber(
    watch: Watch, start: nat, phase: Phase, armed: bool, cursor: nat, sent: seq<nat>, lost: set<nat>)

  datatype Publisher = Quiet | Owes(session: SessionId) | Signals(left: set<nat>)

  datatype State = State(
    store: Store, registered: set<nat>, subs: nat -> Subscriber, pubs: nat -> Publisher)

  datatype Action =
    | Joins(u: nat, watch: Watch, start: nat)
    | Arms(u: nat)
    | Tests(u: nat)
    | Fetches(u: nat)
    | Sends(u: nat)
    | Wakes(u: nat)
    | Beats(u: nat)
    | Leaves(u: nat)
    | Appends(p: nat, session: SessionId, fold: bool)
    | Publishes(p: nat)
    | Notifies(p: nat, u: nat)
    | Prunes(session: SessionId, through: nat)

  /** Following, and past the check. */
  predicate Reading(phase: Phase) {
    phase.Draining? || phase.Sending? || phase.Sleeping?
  }

  predicate Started(phase: Phase) {
    phase.Joined? || phase.Testing? || Reading(phase)
  }

  ghost predicate Start(s: State) {
    && s.store == Store([], {}, 0) && s.registered == {}
    && (forall u :: s.subs(u).phase.Absent?)
    && (forall p :: s.pubs(p).Quiet?)
  }

  ghost predicate Enabled(s: State, a: Action) {
    match a
    case Joins(u, _, _) => s.subs(u).phase.Absent?
    case Arms(u) => s.subs(u).phase.Joined?
    case Tests(u) => s.subs(u).phase.Testing?
    case Fetches(u) => s.subs(u).phase.Draining?
    case Sends(u) => s.subs(u).phase.Sending?
    case Wakes(u) => s.subs(u).phase.Sleeping? && s.subs(u).armed
    case Beats(u) => s.subs(u).phase.Sleeping?
    case Leaves(u) => Started(s.subs(u).phase)
    case Appends(p, _, _) => s.pubs(p).Quiet?
    case Publishes(p) => s.pubs(p).Owes?
    case Notifies(p, u) => s.pubs(p).Signals? && u in s.pubs(p).left
    case Prunes(_, _) => true
  }

  function Goes(s: State, u: nat, sub: Subscriber): State {
    s.(subs := (v: nat) => if v == u then sub else s.subs(v))
  }

  function Does(s: State, p: nat, pub: Publisher): State {
    s.(pubs := (q: nat) => if q == p then pub else s.pubs(q))
  }

  /** Whether a client resuming at `cursor` has to be told that what it is missing is gone. */
  predicate MustResync(store: Store, w: Watch, cursor: nat) {
    match w
    case One(session) => Oldest(store, session) > 0 && cursor > 0 && cursor < Oldest(store, session) - 1
    case All => cursor > 0 && cursor < store.prunedThrough
  }

  /** What is gone that lies after a point. */
  function GoneAfter(store: Store, w: Watch, cursor: nat): set<nat> {
    set n | n in store.discarded && Shows(store.log, w, n) && cursor < Pos(store.log, w, n)
  }

  function Joining(s: State, u: nat, w: Watch, start: nat): State {
    Goes(s, u, Subscriber(w, start, if w.All? then Joined
        else Testing, !w.All?, start, [], GoneAfter(s.store, w, start)))
    .(registered := s.registered + {u})
  }

  function Fetched(s: State, u: nat): State {
    var sub := s.subs(u);
    var events := ListAfter(s.store, sub.watch, sub.cursor);
    Goes(s, u, sub.(phase := if events == [] then Sleeping else Sending(events[0], events[1..])))
  }

  function Sent(s: State, u: nat): State
    requires Enabled(s, Sends(u))
  {
    var sub := s.subs(u);
    var n, rest := sub.phase.next, sub.phase.rest;
    Goes(s, u, sub.(sent := sub.sent + [n], cursor := Pos(s.store.log, sub.watch, n),
                    phase := if rest == [] then Draining else Sending(rest[0], rest[1..])))
  }

  function Do(s: State, a: Action): State
    requires Enabled(s, a)
  {
    match a
    case Joins(u, w, start) => Joining(s, u, w, start)
    case Arms(u) => Goes(s, u, s.subs(u).(armed := true, phase := Testing))
    case Tests(u) =>
      if MustResync(s.store, s.subs(u).watch, s.subs(u).cursor)
      then Goes(s, u, s.subs(u).(phase := Resynced)).(registered := s.registered - {u})
      else Goes(s, u, s.subs(u).(phase := Draining))
    case Fetches(u) => Fetched(s, u)
    case Sends(u) => Sent(s, u)
    case Wakes(u) => Goes(s, u, s.subs(u).(phase := Draining, armed := false))
    case Beats(u) => Goes(s, u, s.subs(u).(phase := Draining))
    case Leaves(u) => Goes(s, u, s.subs(u).(phase := Gone)).(registered := s.registered - {u})
    case Appends(p, session, fold) => Does(s, p, Owes(session)).(store := Appended(s.store, session, fold))
    case Publishes(p) =>
      var session := s.pubs(p).session;
      var left := set u | u in s.registered && Watches(s.subs(u).watch, session);
      Does(s, p, if left == {} then Quiet else Signals(left))
    case Notifies(p, u) =>
      var left := s.pubs(p).left - {u};
      Does(Goes(s, u, s.subs(u).(armed := true)), p, if left == {} then Quiet else Signals(left))
    case Prunes(session, through) =>
      var store := Pruned(s.store, session, through);
      s.(store := store,
         subs := (u: nat) =>
           var sub := s.subs(u);
           if Started(sub.phase) then sub.(lost := sub.lost + GoneAfter(store, sub.watch, sub.cursor)) else sub)
  }

  ghost predicate Run(states: seq<State>, actions: seq<Action>) {
    && |states| == |actions| + 1 && Start(states[0])
    && forall i :: 0 <= i < |actions| ==> Enabled(states[i], actions[i]) && Do(states[i], actions[i]) == states[i + 1]
  }

  // ---- the invariant -----------------------------------------------------------------------

  /** An entry between two points of a subscriber's log. */
  ghost predicate Between(log: seq<Entry>, w: Watch, from: nat, to: nat, n: nat) {
    Shows(log, w, n) && from < Pos(log, w, n) <= to
  }

  /** Everything up to the cursor was sent or is gone, and nothing else was sent. */
  ghost predicate SentOk(log: seq<Entry>, sub: Subscriber) {
    && Rising(sub.sent)
    && (forall n :: n in sub.sent ==> Between(log, sub.watch, sub.start, sub.cursor, n))
    && (forall n :: Between(log, sub.watch, sub.start, sub.cursor, n) ==> n in sub.sent || n in sub.lost)
    && (sub.cursor == sub.start ||
        (sub.sent != [] && sub.cursor == Pos(log, sub.watch, sub.sent[|sub.sent| - 1])))
  }

  /** A batch is the next part of the log, but for what is gone. */
  ghost predicate BatchIs(log: seq<Entry>, w: Watch, cursor: nat, batch: seq<nat>, lost: set<nat>)
    requires batch != []
  {
    && Rising(batch)
    && (forall n :: n in batch ==> Shows(log, w, n) && cursor < Pos(log, w, n))
    && (forall n :: Between(log, w, cursor, Pos(log, w, batch[|batch| - 1]), n) ==> n in batch || n in lost)
  }

  ghost predicate BatchOk(log: seq<Entry>, sub: Subscriber) {
    sub.phase.Sending? ==> BatchIs(log, sub.watch, sub.cursor, [sub.phase.next] + sub.phase.rest, sub.lost)
  }

  ghost predicate LostOk(store: Store, sub: Subscriber) {
    GoneAfter(store, sub.watch, sub.cursor) <= sub.lost <= store.discarded
  }

  /** Somebody has yet to signal this subscriber about the session. */
  ghost predicate Owed(s: State, u: nat, session: SessionId) {
    || (exists p :: s.pubs(p) == Owes(session))
    || (exists p :: s.pubs(p).Signals? && u in s.pubs(p).left)
  }

  /** A sleeping subscriber with something to read has a wake-up waiting or coming. */
  ghost predicate WillWake(s: State, u: nat) {
    var sub := s.subs(u);
    sub.phase.Sleeping? && !sub.armed ==>
      forall n :: Shows(s.store.log, sub.watch, n) && n !in s.store.discarded
          && sub.cursor < Pos(s.store.log, sub.watch, n)
        ==> Owed(s, u, s.store.log[n - 1].session)
  }

  ghost predicate SubscriberOk(s: State, u: nat) {
    var sub := s.subs(u);
    && (u in s.registered <==> Started(sub.phase))
    && (Started(sub.phase) ==>
          SentOk(s.store.log, sub) && BatchOk(s.store.log, sub) && LostOk(s.store, sub) && WillWake(s, u))
  }

  ghost predicate Inv(s: State) {
    StoreOk(s.store) && forall u :: SubscriberOk(s, u)
  }

  lemma {:induction false} StartsOk(s: State)
    requires Start(s)
    ensures Inv(s)
  {
  }

  // ---- one subscriber moves ------------------------------------------------------------------

  /** A subscriber that does something leaves the others as they were. */
  lemma {:induction false} GoesOk(s: State, r: State, u: nat)
    requires Inv(s) && r.store == s.store && r.pubs == s.pubs
    requires forall v :: v != u ==> r.subs(v) == s.subs(v) && (v in r.registered <==> v in s.registered)
    requires SubscriberOk(r, u)
    ensures Inv(r)
  {
    forall v ensures SubscriberOk(r, v) {
      assert SubscriberOk(s, v);
    }
  }

  lemma {:induction false} JoinsOk(s: State, u: nat, w: Watch, start: nat)
    requires Inv(s) && s.subs(u).phase.Absent?
    ensures Inv(Joining(s, u, w, start))
  {
    GoesOk(s, Joining(s, u, w, start), u);
  }

  lemma {:induction false} FetchesOk(s: State, u: nat)
    requires Inv(s) && s.subs(u).phase.Draining?
    ensures Inv(Fetched(s, u))
  {
    var sub, r := s.subs(u), Fetched(s, u);
    var n, batch := |s.store.log|, ListAfter(s.store, sub.watch, sub.cursor);
    assert SubscriberOk(s, u);
    hide Kept;
    if batch == [] {
      forall m | Shows(s.store.log, sub.watch, m) && m !in s.store.discarded
        ensures Pos(s.store.log, sub.watch, m) <= sub.cursor
      {
        KeptAre(s.store, sub.watch, sub.cursor, n, m);
      }
    } else {
      FetchedBatch(s.store, sub);
      assert [batch[0]] + batch[1..] == batch;
    }
    GoesOk(s, r, u);
  }

  lemma {:induction false} FetchedBatch(store: Store, sub: Subscriber)
    requires StoreOk(store) && LostOk(store, sub) && ListAfter(store, sub.watch, sub.cursor) != []
    ensures var batch, log := ListAfter(store, sub.watch, sub.cursor), store.log;
            && Rising(batch)
            && (forall n :: n in batch ==> Shows(log, sub.watch, n) && sub.cursor < Pos(log, sub.watch, n))
            && forall n :: Between(log, sub.watch, sub.cursor, Pos(log, sub.watch, batch[|batch| - 1]), n) ==>
                 n in batch || n in sub.lost
  {
    hide Kept;
    var batch, n := ListAfter(store, sub.watch, sub.cursor), |store.log|;
    var all, last := Kept(store, sub.watch, sub.cursor, n), batch[|batch| - 1];
    KeptRise(store, sub.watch, sub.cursor, n);
    assert last == all[|batch| - 1] && last in all;
    forall m | m in all ensures Shows(store.log, sub.watch, m) && sub.cursor < Pos(store.log, sub.watch, m) {
      KeptAre(store, sub.watch, sub.cursor, n, m);
    }
    forall m | Between(store.log, sub.watch, sub.cursor, Pos(store.log, sub.watch, last), m)
        ensures m in batch || m in sub.lost {
      KeptAre(store, sub.watch, sub.cursor, n, m);
      if m !in store.discarded {
        PosRises(store.log, sub.watch, last, m);
        InTheBatch(all, |batch|, m);
      } else {
        assert m in GoneAfter(store, sub.watch, sub.cursor);
      }
    }
  }

  lemma {:induction false} InTheBatch(all: seq<nat>, k: nat, m: nat)
    requires Rising(all) && 0 < k <= |all| && m in all && m <= all[k - 1]
    ensures m in all[..k]
  {
    var i :| 0 <= i < |all| && all[i] == m;
    assert i < k;
    assert all[..k][i] == m;
  }

  lemma {:induction false} SendsOk(s: State, u: nat)
    requires Inv(s) && s.subs(u).phase.Sending?
    ensures Inv(Sent(s, u))
  {
    var sub, r := s.subs(u), Sent(s, u);
    assert SubscriberOk(s, u);
    SentMore(s.store, sub, r.subs(u));
    GoesOk(s, r, u);
  }

  lemma {:induction false} SentMore(store: Store, sub: Subscriber, now: Subscriber)
    requires StoreOk(store) && sub.phase.Sending? && SentOk(store.log, sub) && BatchOk(store.log, sub)
               && LostOk(store, sub)
    requires var n, rest := sub.phase.next, sub.phase.rest;
             now == sub.(sent := sub.sent + [n], cursor := Pos(store.log, sub.watch, n),
                         phase := if rest == [] then Draining else Sending(rest[0], rest[1..]))
    ensures SentOk(store.log, now) && BatchOk(store.log, now) && LostOk(store, now)
  {
    hide DiscardOk;
    var log, w, n, rest := store.log, sub.watch, sub.phase.next, sub.phase.rest;
    var batch := [n] + rest;
    assert n in batch;
    SentInOrder(store, sub);
    forall m | Between(log, w, sub.start, now.cursor, m) ensures m in now.sent || m in now.lost {
      if sub.cursor < Pos(log, w, m) {
        NextIsNext(store, sub, m);
      }
    }
    RestOk(store, sub, now);
    assert GoneAfter(store, w, now.cursor) <= GoneAfter(store, w, sub.cursor);
  }

  lemma {:induction false} SentInOrder(store: Store, sub: Subscriber)
    requires StoreOk(store) && sub.phase.Sending? && SentOk(store.log, sub) && BatchOk(store.log, sub)
    ensures var n := sub.phase.next;
            && Rising(sub.sent + [n])
            && forall m :: m in sub.sent + [n] ==>
                 Between(store.log, sub.watch, sub.start, Pos(store.log, sub.watch, n), m)
  {
    hide DiscardOk;
    var log, w, n := store.log, sub.watch, sub.phase.next;
    assert n in [n] + sub.phase.rest;
    assert Shows(log, w, n) && sub.cursor < Pos(log, w, n);
    forall i | 0 <= i < |sub.sent| ensures sub.sent[i] < n {
      assert sub.sent[i] in sub.sent;
      PosRises(log, w, sub.sent[i], n);
    }
    assert sub.sent != [] ==> sub.sent[|sub.sent| - 1] in sub.sent;
  }

  lemma {:induction false} RestOk(store: Store, sub: Subscriber, now: Subscriber)
    requires StoreOk(store) && sub.phase.Sending? && BatchOk(store.log, sub)
    requires var n, rest := sub.phase.next, sub.phase.rest;
             now == sub.(sent := sub.sent + [n], cursor := Pos(store.log, sub.watch, n),
                         phase := if rest == [] then Draining else Sending(rest[0], rest[1..]))
    ensures BatchOk(store.log, now) && sub.cursor < now.cursor
  {
    hide DiscardOk, Numbered, BatchIs, Pos;
    var rest := sub.phase.rest;
    RestIs(store.log, sub.watch, sub.cursor, sub.phase.next, rest, sub.lost);
    if rest != [] {
      assert [rest[0]] + rest[1..] == rest;
    }
  }

  lemma {:induction false} RestIs(log: seq<Entry>, w: Watch, cursor: nat, n: nat, rest: seq<nat>, lost: set<nat>)
    requires Numbered(log) && BatchIs(log, w, cursor, [n] + rest, lost)
    ensures cursor < Pos(log, w, n)
    ensures rest != [] ==> BatchIs(log, w, Pos(log, w, n), rest, lost)
  {
    var batch := [n] + rest;
    assert n in batch;
    if rest != [] {
      assert forall i :: 0 <= i < |rest| ==> rest[i] == batch[i + 1];
      forall m | m in rest ensures Shows(log, w, m) && Pos(log, w, n) < Pos(log, w, m) {
        var i :| 0 <= i < |rest| && rest[i] == m;
        assert batch[0] < batch[i + 1];
        assert m in batch;
        PosRises(log, w, n, m);
      }
      assert batch[|batch| - 1] == rest[|rest| - 1];
      forall m | Between(log, w, Pos(log, w, n), Pos(log, w, rest[|rest| - 1]), m) ensures m in rest || m in lost {
        assert Between(log, w, cursor, Pos(log, w, batch[|batch| - 1]), m);
      }
    }
  }

  /** Nothing but what is gone lies between the cursor and the next entry of the batch. */
  lemma {:induction false} NextIsNext(store: Store, sub: Subscriber, m: nat)
    requires StoreOk(store) && sub.phase.Sending? && BatchOk(store.log, sub)
    requires Between(store.log, sub.watch, sub.cursor, Pos(store.log, sub.watch, sub.phase.next), m)
    ensures m == sub.phase.next || m in sub.lost
  {
    hide DiscardOk;
    var log, w, n := store.log, sub.watch, sub.phase.next;
    var batch := [n] + sub.phase.rest;
    var last := batch[|batch| - 1];
    assert n in batch && last in batch;
    PosRises(log, w, n, last);
    PosRises(log, w, last, n);
    assert n <= last;
    assert Between(log, w, sub.cursor, Pos(log, w, last), m);
    if m !in sub.lost {
      var i :| 0 <= i < |batch| && batch[i] == m;
      PosRises(log, w, n, m);
      assert batch[0] <= batch[i];
    }
  }

  lemma {:induction false} SimpleOk(s: State, u: nat, sub: Subscriber)
    requires Inv(s) && Started(s.subs(u).phase) && sub == s.subs(u).(phase := sub.phase, armed := sub.armed)
    requires sub.phase.Testing? || sub.phase.Draining? || sub.phase.Resynced? || sub.phase.Gone?
    ensures Inv(Goes(s, u, sub).(registered := if Started(sub.phase) then s.registered else s.registered - {u}))
  {
    var r := Goes(s, u, sub).(registered := if Started(sub.phase) then s.registered else s.registered - {u});
    assert SubscriberOk(s, u);
    GoesOk(s, r, u);
  }

  // ---- the log and its publishers -------------------------------------------------------------

  /** What is appended lies after everything a subscriber has or is about to send. */
  lemma {:induction false} AppendedIsLast(store: Store, session: SessionId, fold: bool, w: Watch, m: nat)
    requires StoreOk(store) && Shows(store.log, w, m) && Watches(w, session)
    ensures var log := Appended(store, session, fold).log;
            Pos(log, w, m) == Pos(store.log, w, m) < Pos(log, w, |log|)
  {
    hide DiscardOk;
    AppendOk(store, session, fold);
    var log := Appended(store, session, fold).log;
    PosRises(log, w, m, |log|);
  }

  lemma {:induction false} AppendsSub(store: Store, session: SessionId, fold: bool, sub: Subscriber)
    requires StoreOk(store) && SentOk(store.log, sub) && BatchOk(store.log, sub) && LostOk(store, sub)
    ensures var now := Appended(store, session, fold);
            SentOk(now.log, sub) && BatchOk(now.log, sub) && LostOk(now, sub)
  {
    hide DiscardOk;
    var now, w := Appended(store, session, fold), sub.watch;
    forall m | Shows(store.log, w, m)
      ensures Shows(now.log, w, m) && Pos(now.log, w, m) == Pos(store.log, w, m)
      ensures Watches(w, session) ==> Pos(store.log, w, m) < Pos(now.log, w, |now.log|)
    {
      if Watches(w, session) {
        AppendedIsLast(store, session, fold, w, m);
      }
    }
    AppendsSent(store.log, now.log, sub);
    AppendsBatch(store.log, now.log, sub);
    NothingMoreIsGone(store, session, fold, w, sub.cursor);
  }

  /** `now` is `log` and one entry more, which lies after the others of its kind. */
  ghost predicate OneMore(log: seq<Entry>, now: seq<Entry>, w: Watch) {
    && |now| == |log| + 1 && now[..|log|] == log
    && forall m :: Shows(log, w, m) ==>
         && Shows(now, w, m) && Pos(now, w, m) == Pos(log, w, m)
         && (Shows(now, w, |now|) ==> Pos(log, w, m) < Pos(now, w, |now|))
  }

  lemma {:induction false} AppendsSent(log: seq<Entry>, now: seq<Entry>, sub: Subscriber)
    requires SentOk(log, sub) && OneMore(log, now, sub.watch)
    ensures SentOk(now, sub)
  {
    assert sub.sent != [] ==> sub.sent[|sub.sent| - 1] in sub.sent;
    forall m | Between(now, sub.watch, sub.start, sub.cursor, m)
        ensures Between(log, sub.watch, sub.start, sub.cursor, m) {
    }
  }

  lemma {:induction false} AppendsBatch(log: seq<Entry>, now: seq<Entry>, sub: Subscriber)
    requires BatchOk(log, sub) && OneMore(log, now, sub.watch)
    ensures BatchOk(now, sub)
  {
    if sub.phase.Sending? {
      var batch := [sub.phase.next] + sub.phase.rest;
      assert batch[|batch| - 1] in batch;
    }
  }

  lemma {:induction false} NothingMoreIsGone(store: Store, session: SessionId, fold: bool, w: Watch, cursor: nat)
    requires StoreOk(store)
    ensures GoneAfter(Appended(store, session, fold), w, cursor) <= GoneAfter(store, w, cursor)
  {
  }

  lemma {:induction false} AppendsOk(s: State, p: nat, session: SessionId, fold: bool)
    requires Inv(s) && s.pubs(p).Quiet?
    ensures Inv(Do(s, Appends(p, session, fold)))
  {
    var r := Do(s, Appends(p, session, fold));
    AppendOk(s.store, session, fold);
    forall u ensures SubscriberOk(r, u) {
      assert SubscriberOk(s, u);
      if Started(s.subs(u).phase) {
        AppendsSub(s.store, session, fold, s.subs(u));
        AppendWakes(s, r, p, session, fold, u);
      }
    }
  }

  lemma {:induction false} AppendWakes(s: State, r: State, p: nat, session: SessionId, fold: bool, u: nat)
    requires s.pubs(p).Quiet? && r == Do(s, Appends(p, session, fold)) && WillWake(s, u)
    ensures WillWake(r, u)
  {
    var sub, log := s.subs(u), r.store.log;
    assert r.pubs(p) == Owes(session);
    forall n: nat | sub.phase.Sleeping? && !sub.armed && Shows(log, sub.watch, n) && n !in r.store.discarded
        && sub.cursor < Pos(log, sub.watch, n)
      ensures Owed(r, u, log[n - 1].session)
    {
      if n < |log| {
        assert Pos(log, sub.watch, n) == Pos(s.store.log, sub.watch, n);
        StillOwed(s, r, u, log[n - 1].session, p);
      }
    }
  }

  /** Whoever else owes a wake-up still owes it. */
  lemma {:induction false} StillOwed(s: State, r: State, u: nat, session: SessionId, p: nat)
    requires Owed(s, u, session)
    requires forall q :: q != p ==> r.pubs(q) == s.pubs(q)
    requires s.pubs(p).Quiet?
    ensures Owed(r, u, session)
  {
    if q :| s.pubs(q) == Owes(session) {
      assert r.pubs(q) == Owes(session);
    } else {
      var q :| s.pubs(q).Signals? && u in s.pubs(q).left;
      assert r.pubs(q).Signals? && u in r.pubs(q).left;
    }
  }

  /** The snapshot has everybody who watches the session, so what was owed to them all is owed to each. */
  lemma {:induction false} PublishesOk(s: State, p: nat)
    requires Inv(s) && s.pubs(p).Owes?
    ensures Inv(Do(s, Publishes(p)))
  {
    var r := Do(s, Publishes(p));
    forall u ensures SubscriberOk(r, u) {
      assert SubscriberOk(s, u);
      PublishWakes(s, p, u);
    }
  }

  lemma {:induction false} PublishWakes(s: State, p: nat, u: nat)
    requires s.pubs(p).Owes? && WillWake(s, u) && (u in s.registered <==> Started(s.subs(u).phase))
    ensures WillWake(Do(s, Publishes(p)), u)
  {
    var sub, log, r := s.subs(u), s.store.log, Do(s, Publishes(p));
    forall n: nat | sub.phase.Sleeping? && !sub.armed && Shows(log, sub.watch, n) && n !in s.store.discarded
        && sub.cursor < Pos(log, sub.watch, n)
      ensures Owed(r, u, log[n - 1].session)
    {
      var session := log[n - 1].session;
      assert Owed(s, u, session);
      if s.pubs(p) == Owes(session) {
        var left := set v | v in s.registered && Watches(s.subs(v).watch, session);
        assert u in left;
        assert r.pubs(p) == Signals(left);
      } else if q :| s.pubs(q) == Owes(session) {
        assert r.pubs(q) == Owes(session);
      } else {
        var q :| s.pubs(q).Signals? && u in s.pubs(q).left;
        assert r.pubs(q).Signals? && u in r.pubs(q).left;
      }
    }
  }

  lemma {:induction false} NotifiesOk(s: State, p: nat, v: nat)
    requires Inv(s) && s.pubs(p).Signals? && v in s.pubs(p).left
    ensures Inv(Do(s, Notifies(p, v)))
  {
    var r := Do(s, Notifies(p, v));
    forall u ensures SubscriberOk(r, u) {
      assert SubscriberOk(s, u);
      NotifyWakes(s, p, v, u);
    }
  }

  lemma {:induction false} NotifyWakes(s: State, p: nat, v: nat, u: nat)
    requires s.pubs(p).Signals? && v in s.pubs(p).left && WillWake(s, u)
    ensures WillWake(Do(s, Notifies(p, v)), u)
  {
    var sub, log, r := s.subs(u), s.store.log, Do(s, Notifies(p, v));
    if u != v {
      forall n: nat | sub.phase.Sleeping? && !sub.armed && Shows(log, sub.watch, n) && n !in s.store.discarded
          && sub.cursor < Pos(log, sub.watch, n)
        ensures Owed(r, u, log[n - 1].session)
      {
        var session := log[n - 1].session;
        assert Owed(s, u, session);
        if q :| s.pubs(q) == Owes(session) {
          assert r.pubs(q) == Owes(session);
        } else {
          var q :| s.pubs(q).Signals? && u in s.pubs(q).left;
          if q == p {
            var left := s.pubs(p).left - {v};
            assert u in left;
            assert r.pubs(p) == Signals(left);
          }
          assert r.pubs(q).Signals? && u in r.pubs(q).left;
        }
      }
    }
  }

  lemma {:induction false} PrunesOk(s: State, session: SessionId, through: nat)
    requires Inv(s)
    ensures Inv(Do(s, Prunes(session, through)))
  {
    var r := Do(s, Prunes(session, through));
    PruneOk(s.store, session, through);
    forall u ensures SubscriberOk(r, u) {
      assert SubscriberOk(s, u);
      if Started(s.subs(u).phase) {
        assert WillWake(r, u) by {
          forall x | Owed(s, u, x) ensures Owed(r, u, x) {
          }
        }
      }
    }
  }

  lemma {:induction false} StepOk(s: State, a: Action)
    requires Inv(s) && Enabled(s, a)
    ensures Inv(Do(s, a))
  {
    hide Inv;
    match a
    case Joins(u, w, start) => JoinsOk(s, u, w, start);
    case Arms(u) => SimpleIs(s, u, s.subs(u).(armed := true, phase := Testing), Do(s, a));
    case Tests(u) =>
      if MustResync(s.store, s.subs(u).watch, s.subs(u).cursor) {
        SimpleIs(s, u, s.subs(u).(phase := Resynced), Do(s, a));
      } else {
        SimpleIs(s, u, s.subs(u).(phase := Draining), Do(s, a));
      }
    case Fetches(u) => FetchesOk(s, u);
    case Sends(u) => SendsOk(s, u);
    case Wakes(u) => SimpleIs(s, u, s.subs(u).(phase := Draining, armed := false), Do(s, a));
    case Beats(u) => SimpleIs(s, u, s.subs(u).(phase := Draining), Do(s, a));
    case Leaves(u) => SimpleIs(s, u, s.subs(u).(phase := Gone), Do(s, a));
    case Appends(p, session, fold) => AppendsOk(s, p, session, fold);
    case Publishes(p) => PublishesOk(s, p);
    case Notifies(p, u) => NotifiesOk(s, p, u);
    case Prunes(session, through) => PrunesOk(s, session, through);
  }

  lemma {:induction false} SimpleIs(s: State, u: nat, sub: Subscriber, r: State)
    requires Inv(s) && Started(s.subs(u).phase) && sub == s.subs(u).(phase := sub.phase, armed := sub.armed)
    requires sub.phase.Testing? || sub.phase.Draining? || sub.phase.Resynced? || sub.phase.Gone?
    requires r == Goes(s, u, sub).(registered := if Started(sub.phase) then s.registered else s.registered - {u})
    ensures Inv(r)
  {
    SimpleOk(s, u, sub);
  }

  lemma {:induction false} RunOk(states: seq<State>, actions: seq<Action>, n: nat)
    requires Run(states, actions) && n < |states|
    ensures Inv(states[n])
  {
    hide Inv, Do, Enabled;
    if n == 0 {
      StartsOk(states[0]);
    } else {
      RunOk(states, actions, n - 1);
      StepOk(states[n - 1], actions[n - 1]);
    }
  }

  // ---- what that means ---------------------------------------------------------------------------

  /** No wake-up is lost: a sleeping subscriber that has something to read is armed, or a publisher that
      appended to a session it watches has still to take its snapshot, or one has it in its snapshot. */
  lemma {:induction false} NoLostWakeUp(states: seq<State>, actions: seq<Action>, n: nat, u: nat, m: nat)
    requires Run(states, actions) && n < |states|
    requires var s, sub := states[n], states[n].subs(u);
             && sub.phase.Sleeping? && Shows(s.store.log, sub.watch, m) && m !in s.store.discarded
             && sub.cursor < Pos(s.store.log, sub.watch, m)
    ensures states[n].subs(u).armed || Owed(states[n], u, states[n].store.log[m - 1].session)
  {
    RunOk(states, actions, n);
    assert SubscriberOk(states[n], u);
  }

  /** All entries a subscriber watches between two points, in log order. */
  function Due(log: seq<Entry>, w: Watch, from: nat, to: nat, n: nat): seq<nat>
    requires n <= |log|
  {
    if n == 0 then []
    else
      var before := Due(log, w, from, to, n - 1);
      if Shows(log, w, n) && from < Pos(log, w, n) <= to then before + [n] else before
  }

  lemma {:induction false} DueAre(log: seq<Entry>, w: Watch, from: nat, to: nat, n: nat)
    requires n <= |log|
    ensures Rising(Due(log, w, from, to, n))
    ensures forall m: nat :: m in Due(log, w, from, to, n) <==> m <= n && Between(log, w, from, to, m)
  {
    if n != 0 {
      DueAre(log, w, from, to, n - 1);
      var before := Due(log, w, from, to, n - 1);
      assert forall i :: 0 <= i < |before| ==> before[i] in before;
    }
  }

  /** As long as nothing is discarded ahead of its cursor, a subscriber is sent exactly the log after its
      start, in order, each entry once. */
  lemma {:induction false} SentIsTheLog(states: seq<State>, actions: seq<Action>, n: nat, u: nat)
    requires Run(states, actions) && n < |states|
    requires Started(states[n].subs(u).phase) && states[n].subs(u).lost == {}
    ensures var log, sub := states[n].store.log, states[n].subs(u);
            sub.sent == Due(log, sub.watch, sub.start, sub.cursor, |log|)
  {
    RunOk(states, actions, n);
    var log, sub := states[n].store.log, states[n].subs(u);
    assert SubscriberOk(states[n], u);
    DueAre(log, sub.watch, sub.start, sub.cursor, |log|);
    SameRising(sub.sent, Due(log, sub.watch, sub.start, sub.cursor, |log|));
  }

  /** Whatever is discarded, nothing is sent twice or out of order, and only what was discarded is missing. */
  lemma {:induction false} OnlyTheDiscardedIsMissing(states: seq<State>, actions: seq<Action>, n: nat, u: nat)
    requires Run(states, actions) && n < |states| && Started(states[n].subs(u).phase)
    ensures var log, sub := states[n].store.log, states[n].subs(u);
            && Rising(sub.sent)
            && (forall m :: m in sub.sent ==> Between(log, sub.watch, sub.start, sub.cursor, m))
            && (forall m :: Between(log, sub.watch, sub.start, sub.cursor, m) && m !in sub.sent ==> m in sub.lost)
  {
    RunOk(states, actions, n);
    assert SubscriberOk(states[n], u);
  }

  /** When every publisher is done and a subscriber sleeps unarmed, it has been sent everything there is. */
  lemma {:induction false} QuietMeansDelivered(states: seq<State>, actions: seq<Action>, n: nat, u: nat)
    requires Run(states, actions) && n < |states| && states[n].subs(u).phase.Sleeping? && !states[n].subs(u).armed
    requires forall p :: states[n].pubs(p).Quiet?
    ensures var s, sub := states[n], states[n].subs(u);
            forall m :: Shows(s.store.log, sub.watch, m) && m !in s.store.discarded
                && sub.start < Pos(s.store.log, sub.watch, m)
              ==> m in sub.sent
  {
    RunOk(states, actions, n);
    assert SubscriberOk(states[n], u);
    var s, sub := states[n], states[n].subs(u);
    forall m | Shows(s.store.log, sub.watch, m) && m !in s.store.discarded && sub.start < Pos(s.store.log, sub.watch, m)
      ensures m in sub.sent
    {
      NobodyOwes(s, u, s.store.log[m - 1].session);
      assert Between(s.store.log, sub.watch, sub.start, sub.cursor, m);
    }
  }

  lemma {:induction false} NobodyOwes(s: State, u: nat, session: SessionId)
    requires forall p :: s.pubs(p).Quiet?
    ensures !Owed(s, u, session)
  {
  }

  // ---- being told to start over -----------------------------------------------------------------

  /** A client of the whole log that is not told to start over is missing nothing. */
  lemma {:induction false} NotToldMeansWhole(store: Store, cursor: nat)
    requires StoreOk(store) && cursor > 0 && !MustResync(store, All, cursor)
    ensures GoneAfter(store, All, cursor) == {}
  {
  }

  lemma {:induction false} OldestIs(store: Store, session: SessionId)
    requires StoreOk(store)
    ensures forall m :: Shows(store.log, One(session), m) && m !in store.discarded
              ==> 0 < Oldest(store, session) <= store.log[m - 1].seqNo
    ensures Oldest(store, session) == 0 ==> Kept(store, One(session), 0, |store.log|) == []
    ensures Oldest(store, session) > 0 ==>
              exists m :: Shows(store.log, One(session), m) && m !in store.discarded
                  && store.log[m - 1].seqNo == Oldest(store, session)
  {
    hide Kept;
    var w, n := One(session), |store.log|;
    var kept := Kept(store, w, 0, n);
    KeptRise(store, w, 0, n);
    if kept != [] {
      KeptAre(store, w, 0, n, kept[0]);
      assert Shows(store.log, w, kept[0]);
    }
    forall m | Shows(store.log, w, m) && m !in store.discarded
      ensures 0 < Oldest(store, session) <= store.log[m - 1].seqNo
    {
      KeptAre(store, w, 0, n, m);
      var i :| 0 <= i < |kept| && kept[i] == m;
      assert kept[0] <= m;
      PosRises(store.log, w, m, kept[0]);
    }
  }

  /** A fold of the session stands at or before where a client at `cursor` would go on. */
  ghost predicate FoldStands(log: seq<Entry>, session: SessionId, cursor: nat, n: nat) {
    Shows(log, One(session), n) && log[n - 1].fold && log[n - 1].seqNo <= cursor + 1
  }

  /** A client of one session that is missing something goes unnoticed exactly when the record of a fold,
      which is never discarded, still stands at or before where it resumes; or nothing at all is kept. */
  lemma {:induction false} GapUnnoticedIff(store: Store, session: SessionId, cursor: nat)
    requires StoreOk(store) && cursor > 0 && GoneAfter(store, One(session), cursor) != {}
    ensures !MustResync(store, One(session), cursor) <==>
            (exists n :: FoldStands(store.log, session, cursor, n)) || Kept(store, One(session), 0, |store.log|) == []
  {
    hide Kept, Oldest;
    var w := One(session);
    OldestIs(store, session);
    var gone :| gone in GoneAfter(store, w, cursor);
    if n :| FoldStands(store.log, session, cursor, n) {
      assert n !in store.discarded;
    }
    if 0 < Oldest(store, session) <= cursor + 1 {
      var m :| Shows(store.log, w, m) && m !in store.discarded && store.log[m - 1].seqNo == Oldest(store, session);
      assert store.log[m - 1].seqNo <= store.log[gone - 1].seqNo;
      assert !store.log[m - 1].fold ==> GoesBefore(store.log, m, gone);
      assert FoldStands(store.log, session, cursor, m);
    }
    if Kept(store, w, 0, |store.log|) == [] && Oldest(store, session) > 0 {
      var m :| Shows(store.log, w, m) && m !in store.discarded && store.log[m - 1].seqNo == Oldest(store, session);
      KeptAre(store, w, 0, |store.log|, m);
    }
  }

  /** Two messages, a fold, two more and a second fold; then everything through the fourth entry is discarded. */
  function TwoFolds(): Store {
    Store([Entry("s", 1, false), Entry("s", 2, true), Entry("s", 3, false), Entry("s", 4, false), Entry("s", 5, true)],
        {1, 3, 4}, 4)
  }

  lemma {:induction false} TwoFoldsArePruned()
    ensures TwoFolds() == Pruned(TwoFolds().(discarded := {}, prunedThrough := 0), "s", 4)
  {
    var log := TwoFolds().log;
    assert Highest(log, "s", 4) == 4 by {
      assert log[..4][..|log[..4]|] == log[..4];
    }
    assert MayGo(log, "s", 4, 1) && MayGo(log, "s", 4, 3) && MayGo(log, "s", 4, 4);
  }

  /** Pruned through 4, the store hands a client that resumes after the first fold the second one, and does not tell it
      that two messages are gone. */
  lemma {:induction false} AGapGoesUnnoticed()
    ensures TwoFolds() == Pruned(TwoFolds().(discarded := {}, prunedThrough := 0), "s", 4)
    ensures 3 in GoneAfter(TwoFolds(), One("s"), 2) && !MustResync(TwoFolds(), One("s"), 2)
  {
    var store := TwoFolds();
    assert Numbered(store.log);
    assert FoldStands(store.log, "s", 2, 2);
    assert 3 in GoneAfter(store, One("s"), 2);
    GapUnnoticedIff(store, "s", 2);
    TwoFoldsArePruned();
  }
}
