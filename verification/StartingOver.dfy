/** When a client that comes back is told to start over, in terms of the prunes there have been. */
module StartingOver {
  import opened EventStore
  import opened Following

  // ---- what prunes do to a store -----------------------------------------------------------

  /** The m-th entry is of the session, up to some number in it. */
  ghost predicate UpTo(log: seq<Entry>, session: SessionId, through: nat, m: nat) {
    1 <= m <= |log| && log[m - 1].session == session && log[m - 1].seqNo <= through
  }

  /** The entry is of the session that the i-th step prunes and lies within what is pruned. */
  ghost predicate Reaches(states: seq<State>, actions: seq<Action>, i: nat, m: nat)
    requires i < |actions| && i < |states|
  {
    actions[i].Prunes? && UpTo(states[i].store.log, actions[i].session, actions[i].through, m)
  }

  /** The i-th step prunes past the cursor: it reaches an entry that lies after it. */
  ghost predicate ReachesPast(states: seq<State>, actions: seq<Action>, i: nat, cursor: nat)
    requires i < |actions| && i < |states|
  {
    exists m: nat :: Reaches(states, actions, i, m) && cursor < m
  }

  ghost predicate PrunedPast(states: seq<State>, actions: seq<Action>, n: nat, cursor: nat)
    requires n <= |actions| && n <= |states|
  {
    exists i: nat :: i < n && ReachesPast(states, actions, i, cursor)
  }

  /** The i-th step discards the entry: it reaches it, and it is not the record of a fold. */
  ghost predicate Discards(states: seq<State>, actions: seq<Action>, i: nat, m: nat)
    requires i < |actions| && i < |states|
  {
    Reaches(states, actions, i, m) && !states[i].store.log[m - 1].fold
  }

  lemma {:induction false} HighestReached(log: seq<Entry>, session: SessionId, through: nat)
    ensures var highest := Highest(log, session, through);
            highest > 0 ==> UpTo(log, session, through, highest)
    ensures forall m: nat :: UpTo(log, session, through, m) ==> m <= Highest(log, session, through)
  {
    if log != [] {
      var before := log[..|log| - 1];
      HighestReached(before, session, through);
      assert forall m: nat :: UpTo(log, session, through, m) && m < |log| ==> UpTo(before, session, through, m);
    }
  }

  lemma {:induction false} StoresOk(states: seq<State>, actions: seq<Action>, n: nat)
    requires Run(states, actions) && n < |states|
    ensures StoreOk(states[n].store)
  {
    hide Run;
    RunOk(states, actions, n);
  }

  /** The mark is past a point exactly when some prune reached an entry past it. */
  lemma {:induction false} MarkIsReach(states: seq<State>, actions: seq<Action>, n: nat, cursor: nat)
    requires Run(states, actions) && n < |states|
    ensures cursor < states[n].store.prunedThrough <==> PrunedPast(states, actions, n, cursor)
  {
    if n > 0 {
      var k := n - 1;
      MarkIsReach(states, actions, k, cursor);
      assert PrunedPast(states, actions, n, cursor)
          <==> PrunedPast(states, actions, k, cursor) || ReachesPast(states, actions, k, cursor);
      StoresOk(states, actions, k);
      MarkMoves(states, actions, k, cursor);
    }
  }

  lemma {:induction false} MarkMoves(states: seq<State>, actions: seq<Action>, k: nat, cursor: nat)
    requires Run(states, actions) && k < |actions| && StoreOk(states[k].store)
    ensures cursor < states[k + 1].store.prunedThrough
            <==> cursor < states[k].store.prunedThrough || ReachesPast(states, actions, k, cursor)
  {
    hide StoreOk, DiscardOk, Highest;
    var s, a := states[k], actions[k];
    assert Do(s, a) == states[k + 1];
    if a.Prunes? {
      HighestReached(s.store.log, a.session, a.through);
      var highest := Highest(s.store.log, a.session, a.through);
      if a.through == 0 {
        NothingUpToZero(s.store, a.session);
      } else if cursor < highest {
        assert Reaches(states, actions, k, highest);
      }
    }
  }

  lemma {:induction false} NothingUpToZero(store: Store, session: SessionId)
    requires StoreOk(store)
    ensures forall m: nat :: !UpTo(store.log, session, 0, m)
  {
  }

  /** What is discarded is exactly what the prunes have discarded. */
  lemma {:induction false} DiscardedIff(states: seq<State>, actions: seq<Action>, n: nat, m: nat)
    requires Run(states, actions) && n < |states|
    ensures m in states[n].store.discarded <==> exists i: nat :: i < n && Discards(states, actions, i, m)
  {
    if n > 0 {
      var k := n - 1;
      DiscardedIff(states, actions, k, m);
      assert (exists i: nat :: i < n && Discards(states, actions, i, m))
          <==> (exists i: nat :: i < k && Discards(states, actions, i, m)) || Discards(states, actions, k, m);
      StoresOk(states, actions, k);
      DiscardedMoves(states, actions, k, m);
    }
  }

  lemma {:induction false} DiscardedMoves(states: seq<State>, actions: seq<Action>, k: nat, m: nat)
    requires Run(states, actions) && k < |actions| && StoreOk(states[k].store)
    ensures m in states[k + 1].store.discarded
            <==> m in states[k].store.discarded || Discards(states, actions, k, m)
  {
    hide DiscardOk, Highest;
    assert Do(states[k], actions[k]) == states[k + 1];
  }

  // ---- a client of the whole log -----------------------------------------------------------

  /** Until it has been checked, a client is where it asked to go on. */
  lemma {:induction false} ChecksWhereItJoined(states: seq<State>, actions: seq<Action>, n: nat, u: nat)
    requires Run(states, actions) && n < |states|
    requires states[n].subs(u).phase.Joined? || states[n].subs(u).phase.Testing?
    ensures states[n].subs(u).cursor == states[n].subs(u).start && states[n].subs(u).sent == []
  {
    if n > 0 {
      assert Enabled(states[n - 1], actions[n - 1]) && Do(states[n - 1], actions[n - 1]) == states[n];
      if states[n - 1].subs(u).phase.Joined? || states[n - 1].subs(u).phase.Testing? {
        ChecksWhereItJoined(states, actions, n - 1, u);
      }
    }
  }

  /** A client of the whole log that resumes is told to start over exactly when some prune reached an entry after
      the point it resumes from; otherwise it is sent on from there. */
  lemma {:induction false} ToldToStartOverIff(states: seq<State>, actions: seq<Action>, n: nat, u: nat)
    requires Run(states, actions) && n < |actions| && actions[n] == Tests(u) && states[n].subs(u).watch == All
    ensures var start, now := states[n].subs(u).start, states[n + 1].subs(u).phase;
            && (now == Resynced <==> start > 0 && PrunedPast(states, actions, n, start))
            && (now == Draining <==> start == 0 || !PrunedPast(states, actions, n, start))
  {
    hide PrunedPast, Inv;
    assert Enabled(states[n], actions[n]) && Do(states[n], actions[n]) == states[n + 1];
    ChecksWhereItJoined(states, actions, n, u);
    MarkIsReach(states, actions, n, states[n].subs(u).start);
  }

  /** Told although nothing at all is discarded: exactly when the prunes reached past it and met folds only. */
  lemma {:induction false} ToldForNothingIff(states: seq<State>, actions: seq<Action>, n: nat, u: nat)
    requires Run(states, actions) && n < |actions| && actions[n] == Tests(u) && states[n].subs(u).watch == All
    ensures states[n + 1].subs(u).phase == Resynced && states[n].store.discarded == {}
            <==> && states[n].subs(u).start > 0 && PrunedPast(states, actions, n, states[n].subs(u).start)
                 && forall i: nat, m: nat :: i < n && Reaches(states, actions, i, m) ==> states[i].store.log[m - 1].fold
  {
    hide PrunedPast, Inv;
    ToldToStartOverIff(states, actions, n, u);
    if states[n].store.discarded == {} {
      forall i: nat, m: nat | i < n && Reaches(states, actions, i, m) ensures states[i].store.log[m - 1].fold {
        DiscardedIff(states, actions, n, m);
        assert Discards(states, actions, i, m) || states[i].store.log[m - 1].fold;
      }
    } else {
      var m :| m in states[n].store.discarded;
      DiscardedIff(states, actions, n, m);
      var i: nat :| i < n && Discards(states, actions, i, m);
      assert Reaches(states, actions, i, m);
    }
  }

  /** Nobody has pruned: nobody is told to start over. */
  lemma {:induction false} NeverWithoutAPrune(states: seq<State>, actions: seq<Action>, n: nat, u: nat)
    requires Run(states, actions) && n < |actions| && actions[n] == Tests(u) && states[n].subs(u).watch == All
    requires forall i :: 0 <= i < n ==> !actions[i].Prunes?
    ensures states[n + 1].subs(u).phase == Draining
  {
    hide Run;
    ToldToStartOverIff(states, actions, n, u);
  }

  // ---- a client of one session --------------------------------------------------------------

  ghost predicate IsNumber(log: seq<Entry>, session: SessionId, k: nat, m: nat) {
    1 <= m <= |log| && log[m - 1].session == session && log[m - 1].seqNo == k
  }

  /** The session has an entry with this number. */
  ghost predicate Has(log: seq<Entry>, session: SessionId, k: nat) {
    exists m: nat :: IsNumber(log, session, k, m)
  }

  /** Every session is numbered without a gap up to the last number it has used. */
  ghost predicate Gapless(log: seq<Entry>) {
    forall session, k: nat :: 1 <= k <= HeadOf(log, session) ==> Has(log, session, k)
  }

  lemma {:induction false} AppendGapless(store: Store, session: SessionId, fold: bool)
    requires Gapless(store.log)
    ensures Gapless(Appended(store, session, fold).log)
  {
    var log := Appended(store, session, fold).log;
    assert log[..|store.log|] == store.log;
    forall s: SessionId, k: nat | 1 <= k <= HeadOf(log, s) ensures Has(log, s, k) {
      if s == session && k == HeadOf(log, s) {
        assert IsNumber(log, s, k, |log|);
      } else {
        assert Has(store.log, s, k);
        var m: nat :| IsNumber(store.log, s, k, m);
        assert IsNumber(log, s, k, m);
      }
    }
  }

  lemma {:induction false} NothingIsGapless()
    ensures Gapless([])
  {
  }

  lemma {:induction false} HasUpToHead(log: seq<Entry>, session: SessionId, k: nat)
    requires Gapless(log) && 1 <= k <= HeadOf(log, session)
    ensures Has(log, session, k)
  {
  }

  lemma {:induction false} RunGapless(states: seq<State>, actions: seq<Action>, n: nat)
    requires Run(states, actions) && n < |states|
    ensures Gapless(states[n].store.log)
  {
    hide Gapless;
    if n == 0 {
      NothingIsGapless();
    } else {
      RunGapless(states, actions, n - 1);
      var s, a := states[n - 1], actions[n - 1];
      assert Enabled(s, a) && Do(s, a) == states[n];
      if a.Appends? {
        AppendGapless(s.store, a.session, a.fold);
      }
    }
  }

  /** The entry is of the session, and it is still there. */
  ghost predicate Remains(store: Store, session: SessionId, m: nat) {
    1 <= m <= |store.log| && store.log[m - 1].session == session && m !in store.discarded
  }

  /** The entry is of the session, lies after the cursor, and is gone. */
  ghost predicate Missing(store: Store, session: SessionId, cursor: nat, m: nat) {
    1 <= m <= |store.log| && store.log[m - 1].session == session && cursor < store.log[m - 1].seqNo
    && m in store.discarded
  }

  /** The record of a fold stands at or before where a client at the cursor would go on. */
  ghost predicate FoldInFront(store: Store, session: SessionId, cursor: nat, m: nat) {
    && 1 <= m <= |store.log| && store.log[m - 1].session == session
    && store.log[m - 1].fold && store.log[m - 1].seqNo <= cursor + 1
  }

  /** A client of one session that is told to start over is missing something. */
  lemma {:induction false} ToldMeansMissing(store: Store, session: SessionId, cursor: nat)
    requires StoreOk(store) && Gapless(store.log) && MustResync(store, One(session), cursor)
    ensures cursor > 0 && exists m: nat :: Missing(store, session, cursor, m)
  {
    hide Oldest, Kept, Gapless, DiscardOk;
    OldestIs(store, session);
    var m: nat :| Shows(store.log, One(session), m) && m !in store.discarded
        && store.log[m - 1].seqNo == Oldest(store, session);
    HeadIsLast(store.log, session, m - 1);
    HasUpToHead(store.log, session, cursor + 1);
    var next: nat :| IsNumber(store.log, session, cursor + 1, next);
    assert Shows(store.log, One(session), next);
    assert Missing(store, session, cursor, next);
  }

  lemma {:induction false} ToldOrNot(store: Store, session: SessionId, cursor: nat)
    requires StoreOk(store) && Gapless(store.log)
    ensures MustResync(store, One(session), cursor) <==>
            && cursor > 0
            && (exists m: nat :: Missing(store, session, cursor, m))
            && (exists m: nat :: Remains(store, session, m))
            && !exists m: nat :: FoldInFront(store, session, cursor, m)
  {
    hide Oldest, Kept, Gapless, DiscardOk;
    var w, n := One(session), |store.log|;
    if MustResync(store, w, cursor) {
      ToldMeansMissing(store, session, cursor);
      OldestIs(store, session);
      var kept: nat :| Shows(store.log, w, kept) && kept !in store.discarded;
      assert Remains(store, session, kept);
    }
    if m: nat :| Missing(store, session, cursor, m) {
      assert m in GoneAfter(store, w, cursor);
      assert forall k :: FoldStands(store.log, session, cursor, k) <==> FoldInFront(store, session, cursor, k);
      if cursor > 0 {
        GapUnnoticedIff(store, session, cursor);
      }
    }
    if m: nat :| Remains(store, session, m) {
      NumberedFromOne(store.log, m);
      KeptAre(store, w, 0, n, m);
    }
  }

  lemma {:induction false} NumberedFromOne(log: seq<Entry>, m: nat)
    requires Numbered(log) && 1 <= m <= |log|
    ensures Pos(log, One(log[m - 1].session), m) == log[m - 1].seqNo > 0
  {
  }

  /** A client of one session that resumes is told to start over exactly when something after the point it resumes
      from is gone, something of the session is left, and no record of a fold stands at or before where it would go
      on; otherwise it is sent on from there. */
  lemma {:induction false} ToldAboutASessionIff(
      states: seq<State>, actions: seq<Action>, n: nat, u: nat, session: SessionId)
    requires Run(states, actions) && n < |actions| && actions[n] == Tests(u) && states[n].subs(u).watch == One(session)
    ensures var start, store, now := states[n].subs(u).start, states[n].store, states[n + 1].subs(u).phase;
            && (now == Resynced || now == Draining)
            && (now == Resynced <==>
                && start > 0
                && (exists m: nat :: Missing(store, session, start, m))
                && (exists m: nat :: Remains(store, session, m))
                && !exists m: nat :: FoldInFront(store, session, start, m))
  {
    hide Missing, Remains, FoldInFront, Gapless, MustResync;
    assert Enabled(states[n], actions[n]) && Do(states[n], actions[n]) == states[n + 1];
    ChecksWhereItJoined(states, actions, n, u);
    RunOk(states, actions, n);
    RunGapless(states, actions, n);
    var start, store := states[n].subs(u).start, states[n].store;
    ToldOrNot(store, session, start);
  }

  // ---- told although nothing is gone -----------------------------------------------------------

  function Onwards(states: seq<State>, a: Action): seq<State>
    requires states != [] && Enabled(states[|states| - 1], a)
  {
    states + [Do(states[|states| - 1], a)]
  }

  lemma {:induction false} RunsOn(states: seq<State>, actions: seq<Action>, a: Action)
    requires Run(states, actions) && Enabled(states[|states| - 1], a)
    ensures Run(Onwards(states, a), actions + [a])
  {
    hide Do, Enabled, Start;
  }

  /** A session with one message and one that begins with a fold, which a prune of it reaches. */
  function OneFold(): Store {
    Store([Entry("a", 1, false), Entry("b", 1, true)], {}, 0)
  }

  lemma {:induction false} OnlyTheMarkMoves()
    ensures Pruned(OneFold(), "b", 1) == OneFold().(prunedThrough := 2)
    ensures Appended(Appended(Store([], {}, 0), "a", false), "b", true) == OneFold()
  {
    var log := OneFold().log;
    assert log[..1] == [log[0]];
    assert Highest(log, "b", 1) == 2;
    assert Taken(OneFold(), "b", 1) == {};
  }

  /** A client that resumes before a fold which a prune reached is told to start over while everything is there. */
  lemma {:induction false} AFoldIsEnough(s: State) returns (states: seq<State>, actions: seq<Action>)
    requires Start(s)
    ensures Run(states, actions) && states[0] == s
    ensures states[|actions|].subs(0).phase == Resynced && states[|actions|].subs(0).start == 1
    ensures states[|actions|].store.discarded == {}
  {
    states, actions := [s], [];
    var steps := [Appends(0, "a", false), Appends(1, "b", true), Prunes("b", 1), Joins(0, All, 1), Arms(0), Tests(0)];
    OnlyTheMarkMoves();
    hide Appended, Pruned;
    RunsOn(states, actions, steps[0]);
    states, actions := Onwards(states, steps[0]), actions + [steps[0]];
    RunsOn(states, actions, steps[1]);
    states, actions := Onwards(states, steps[1]), actions + [steps[1]];
    RunsOn(states, actions, steps[2]);
    states, actions := Onwards(states, steps[2]), actions + [steps[2]];
    RunsOn(states, actions, steps[3]);
    states, actions := Onwards(states, steps[3]), actions + [steps[3]];
    RunsOn(states, actions, steps[4]);
    states, actions := Onwards(states, steps[4]), actions + [steps[4]];
    RunsOn(states, actions, steps[5]);
    states, actions := Onwards(states, steps[5]), actions + [steps[5]];
  }
}
