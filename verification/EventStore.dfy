/** The log of every session, what is kept of it, and how it is read in batches. */
module EventStore {

  type SessionId = string

  /** The n-th entry of the whole log, numbered from 1, is also the `seqNo`-th of its session. */
  datatype Entry = Entry(session: SessionId, seqNo: nat, fold: bool)

  datatype Watch = One(session: SessionId) | All

  const BATCH := 256

  // ---- the store ----------------------------------------------------------------------

  datatype Store = Store(log: seq<Entry>, discarded: set<nat>, prunedThrough: nat)

  predicate Watches(w: Watch, session: SessionId) {
    w.All? || w.session == session
  }

  predicate Shows(log: seq<Entry>, w: Watch, n: nat) {
    1 <= n <= |log| && Watches(w, log[n - 1].session)
  }

  /** Where an entry is for a subscriber: in its session, or in the whole log. */
  function Pos(log: seq<Entry>, w: Watch, n: nat): nat {
    if n == 0 || |log| < n then 0 else if w.All? then n else log[n - 1].seqNo
  }

  /** The last number a session has used. */
  function HeadOf(log: seq<Entry>, session: SessionId): nat {
    if log == [] then 0
    else if log[|log| - 1].session == session then log[|log| - 1].seqNo
    else HeadOf(log[..|log| - 1], session)
  }

  /** Entries of the first `n` that are kept and lie after the cursor. */
  function Kept(store: Store, w: Watch, cursor: nat, n: nat): seq<nat>
    requires n <= |store.log|
  {
    if n == 0 then []
    else
      var before := Kept(store, w, cursor, n - 1);
      if Shows(store.log, w, n) && n !in store.discarded && cursor < Pos(store.log, w, n) then before + [n] else before
  }

  function ListAfter(store: Store, w: Watch, cursor: nat): (events: seq<nat>)
    ensures var kept := |Kept(store, w, cursor, |store.log|)|; |events| == if kept < 256 then kept else 256
  {
    var kept := Kept(store, w, cursor, |store.log|);
    if |kept| <= BATCH then kept else kept[..BATCH]
  }

  /** The smallest number a session still has, or 0. */
  function Oldest(store: Store, session: SessionId): nat {
    var kept := Kept(store, One(session), 0, |store.log|);
    if kept == [] then 0
    else
      KeptAre(store, One(session), 0, |store.log|, kept[0]);
      store.log[kept[0] - 1].seqNo
  }

  function Appended(store: Store, session: SessionId, fold: bool): Store {
    store.(log := store.log + [Entry(session, HeadOf(store.log, session) + 1, fold)])
  }

  /** What pruning a session takes: everything through a point but the records of its folds. */
  function Taken(store: Store, session: SessionId, through: nat): set<nat> {
    set n | 1 <= n <= |store.log| && MayGo(store.log, session, through, n)
  }

  predicate MayGo(log: seq<Entry>, session: SessionId, through: nat, n: nat) {
    Shows(log, One(session), n) && log[n - 1].seqNo <= through && !log[n - 1].fold
  }

  function Highest(log: seq<Entry>, session: SessionId, through: nat): nat {
    if log == [] then 0
    else if log[|log| - 1].session == session && log[|log| - 1].seqNo <= through then |log|
    else Highest(log[..|log| - 1], session, through)
  }

  function Pruned(store: Store, session: SessionId, through: nat): Store {
    if through == 0 then store
    else
      var highest := Highest(store.log, session, through);
      store.(discarded := store.discarded + Taken(store, session, through),
             prunedThrough := if store.prunedThrough < highest then highest else store.prunedThrough)
  }

  /** A session numbers its entries upwards from 1. */
  ghost predicate Numbered(log: seq<Entry>) {
    && (forall i, j :: 0 <= i < j < |log| && log[i].session == log[j].session ==> log[i].seqNo < log[j].seqNo)
    && (forall i :: 0 <= i < |log| ==> 0 < log[i].seqNo)
  }

  /** `m` is what a prune that took `n` would have taken too. */
  ghost predicate GoesBefore(log: seq<Entry>, m: nat, n: nat)
    requires 1 <= n <= |log|
  {
    Shows(log, One(log[n - 1].session), m) && !log[m - 1].fold && log[m - 1].seqNo <= log[n - 1].seqNo
  }

  /** What is discarded lies behind the mark, is no fold, and goes from the front of its session. */
  ghost predicate DiscardOk(store: Store) {
    && (forall n :: n in store.discarded ==>
          1 <= n <= |store.log| && n <= store.prunedThrough && !store.log[n - 1].fold)
    && (forall m, n :: n in store.discarded && GoesBefore(store.log, m, n) ==> m in store.discarded)
  }

  ghost predicate StoreOk(store: Store) {
    Numbered(store.log) && DiscardOk(store)
  }

  lemma {:induction false} KeptAre(store: Store, w: Watch, cursor: nat, n: nat, m: nat)
    requires n <= |store.log|
    ensures m in Kept(store, w, cursor, n) <==>
            Shows(store.log, w, m) && m <= n && m !in store.discarded && cursor < Pos(store.log, w, m)
  {
    if n != 0 {
      KeptAre(store, w, cursor, n - 1, m);
    }
  }

  ghost predicate Rising(ns: seq<nat>) {
    forall i, j :: 0 <= i < j < |ns| ==> ns[i] < ns[j]
  }

  lemma {:induction false} KeptRise(store: Store, w: Watch, cursor: nat, n: nat)
    requires n <= |store.log|
    ensures Rising(Kept(store, w, cursor, n))
    ensures forall m :: m in Kept(store, w, cursor, n) ==> 1 <= m <= n
  {
    if n != 0 {
      KeptRise(store, w, cursor, n - 1);
      var before := Kept(store, w, cursor, n - 1);
      assert forall i :: 0 <= i < |before| ==> before[i] in before;
    }
  }

  lemma {:induction false} HeadIsLast(log: seq<Entry>, session: SessionId, i: nat)
    requires i < |log| && log[i].session == session
    requires Numbered(log)
    ensures log[i].seqNo <= HeadOf(log, session)
  {
    if log[|log| - 1].session != session {
      HeadIsLast(log[..|log| - 1], session, i);
    }
  }

  lemma {:induction false} AppendOk(store: Store, session: SessionId, fold: bool)
    requires StoreOk(store)
    ensures StoreOk(Appended(store, session, fold))
  {
    forall i | 0 <= i < |store.log| && store.log[i].session == session
      ensures store.log[i].seqNo <= HeadOf(store.log, session)
    {
      HeadIsLast(store.log, session, i);
    }
  }

  lemma {:induction false} HighestIs(log: seq<Entry>, session: SessionId, through: nat, n: nat)
    requires 1 <= n <= |log| && log[n - 1].session == session && log[n - 1].seqNo <= through
    ensures n <= Highest(log, session, through) <= |log|
  {
    if n < |log| && !(log[|log| - 1].session == session && log[|log| - 1].seqNo <= through) {
      HighestIs(log[..|log| - 1], session, through, n);
    }
  }

  lemma {:induction false} PruneOk(store: Store, session: SessionId, through: nat)
    requires StoreOk(store)
    ensures StoreOk(Pruned(store, session, through))
  {
    forall n | n in Taken(store, session, through) ensures n <= Highest(store.log, session, through) {
      HighestIs(store.log, session, through, n);
    }
  }

  lemma {:induction false} PosRises(log: seq<Entry>, w: Watch, m: nat, n: nat)
    requires Numbered(log) && Shows(log, w, m) && Shows(log, w, n)
    ensures m < n <==> Pos(log, w, m) < Pos(log, w, n)
  {
  }

  // ---- draining ---------------------------------------------------------------------------

  /** Sends everything available, batch by batch, and returns where it got to. */
  method Drain(store: Store, w: Watch, from: nat) returns (sent: seq<nat>, cursor: nat)
    requires StoreOk(store)
    ensures sent == Kept(store, w, from, |store.log|)
    ensures ListAfter(store, w, cursor) == []
    ensures cursor == if sent == [] then from else Pos(store.log, w, sent[|sent| - 1])
  {
    hide Kept, ListAfter, StoreOk, Pos, Shows;
    sent, cursor := [], from;
    while true
      invariant sent + Kept(store, w, cursor, |store.log|) == Kept(store, w, from, |store.log|)
      invariant sent == [] ==> cursor == from
      invariant sent != [] ==> cursor == Pos(store.log, w, sent[|sent| - 1])
      decreases |Kept(store, w, cursor, |store.log|)|
    {
      var events := ListAfter(store, w, cursor);
      if |events| == 0 {
        NothingListed(store, w, cursor);
        break;
      }
      BatchThenRest(store, w, cursor);
      ghost var already := sent;
      for i := 0 to |events|
        invariant sent == already + events[..i]
        invariant i > 0 ==> cursor == Pos(store.log, w, events[i - 1])
      {
        sent := sent + [events[i]];
        cursor := Pos(store.log, w, events[i]);
      }
    }
  }

  lemma {:induction false} NothingListed(store: Store, w: Watch, cursor: nat)
    requires ListAfter(store, w, cursor) == []
    ensures Kept(store, w, cursor, |store.log|) == []
  {
    hide Kept;
  }

  /** What is left after a batch is what comes after its last entry. */
  lemma {:induction false} BatchThenRest(store: Store, w: Watch, cursor: nat)
    requires StoreOk(store) && ListAfter(store, w, cursor) != []
    ensures var batch := ListAfter(store, w, cursor);
            && Shows(store.log, w, batch[|batch| - 1])
            && (forall n :: n in batch ==> Shows(store.log, w, n))
            && Kept(store, w, cursor, |store.log|)
               == batch + Kept(store, w, Pos(store.log, w, batch[|batch| - 1]), |store.log|)
  {
    var n, batch := |store.log|, ListAfter(store, w, cursor);
    var all, last := Kept(store, w, cursor, n), batch[|batch| - 1];
    forall m | m in all ensures Shows(store.log, w, m) {
      KeptAre(store, w, cursor, n, m);
    }
    assert last == all[|batch| - 1] && all[|batch| - 1] in all;
    KeptRise(store, w, cursor, n);
    KeptSplits(store, w, cursor, |batch|);
  }

  lemma {:induction false} KeptSplits(store: Store, w: Watch, cursor: nat, k: nat)
    requires StoreOk(store)
    requires 0 < k <= |Kept(store, w, cursor, |store.log|)|
    ensures var all := Kept(store, w, cursor, |store.log|);
            && Shows(store.log, w, all[k - 1])
            && Kept(store, w, Pos(store.log, w, all[k - 1]), |store.log|) == all[k..]
  {
    var n, all := |store.log|, Kept(store, w, cursor, |store.log|);
    assert all[k - 1] in all;
    KeptAre(store, w, cursor, n, all[k - 1]);
    var rest := Kept(store, w, Pos(store.log, w, all[k - 1]), n);
    KeptRise(store, w, cursor, n);
    KeptRise(store, w, Pos(store.log, w, all[k - 1]), n);
    forall m ensures m in rest <==> m in all[k..] {
      KeptAre(store, w, cursor, n, m);
      KeptAre(store, w, Pos(store.log, w, all[k - 1]), n, m);
      if Shows(store.log, w, m) {
        PosRises(store.log, w, all[k - 1], m);
      }
      if m in all {
        var i :| 0 <= i < |all| && all[i] == m;
        assert m > all[k - 1] <==> i >= k;
        assert i >= k ==> all[k..][i - k] == m;
      }
    }
    SameRising(rest, all[k..]);
  }

  lemma {:induction false} LastIsLargest(a: seq<nat>)
    requires Rising(a) && a != []
    ensures forall m :: m in a ==> m <= a[|a| - 1]
    ensures a == a[..|a| - 1] + [a[|a| - 1]]
    ensures forall m :: m in a[..|a| - 1] <==> m in a && m != a[|a| - 1]
    ensures Rising(a[..|a| - 1])
  {
    var init, last := a[..|a| - 1], a[|a| - 1];
    assert a == init + [last];
    assert forall m :: m in a <==> m in init || m == last;
  }

  /** Rising sequences with the same elements are the same. */
  lemma {:induction false} SameRising(a: seq<nat>, b: seq<nat>)
    requires Rising(a) && Rising(b) && forall m :: m in a <==> m in b
    ensures a == b
  {
    if a == [] {
      assert forall i :: 0 <= i < |b| ==> b[i] in b;
    } else {
      assert a[|a| - 1] in b;
      LastIsLargest(a);
      LastIsLargest(b);
      assert b[|b| - 1] in a;
      assert a[|a| - 1] == b[|b| - 1];
      var a', b' := a[..|a| - 1], b[..|b| - 1];
      forall m ensures m in a' <==> m in b' {
        assert m in a <==> m in b;
        assert m in a' <==> m in a && m != a[|a| - 1];
        assert m in b' <==> m in b && m != b[|b| - 1];
      }
      SameRising(a', b');
    }
  }
}
