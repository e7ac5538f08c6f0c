/** Tool calls and their results, and what a fold does to them. */
module Calls {
  import opened Domain
  import opened Grouping
  import opened Placement
  import opened Folds
  import opened Estimate
  import opened Compaction
  import opened Meanwhile

  // ---- in the messages --------------------------------------------------------------

  function CallIds(blocks: seq<Block>): set<string> {
    set b | b in blocks && b.ToolUse? :: b.id
  }

  function AnsweredIds(blocks: seq<Block>): set<string> {
    set b | b in blocks && b.ToolResult? :: b.callId
  }

  ghost predicate Calling(m: Message) {
    m.role.Assistant? && CallIds(m.content) != {}
  }

  /** `i` holds the results of exactly the calls made at `i - 1`. */
  ghost predicate Answers(ms: seq<Bounded>, i: nat) {
    && 0 < i < |ms| && ms[i].message.role.Tool? && Calling(ms[i - 1].message)
    && CallIds(ms[i - 1].message.content) == AnsweredIds(ms[i].message.content)
  }

  /** From a message on, every call is answered by the very next one, and nothing else is. */
  ghost predicate PairedFrom(ms: seq<Bounded>, from: nat) {
    && (forall i :: from <= i < |ms| && IsTool(ms, i) ==> from < i && Answers(ms, i))
    && (forall i :: from <= i < |ms| && Calling(ms[i].message) ==> Answers(ms, i + 1))
  }

  ghost predicate Paired(ms: seq<Bounded>) {
    PairedFrom(ms, 0)
  }

  /** With the messages before a turn replaced by a summary, calls and results are paired exactly when those from that
      turn on were. */
  lemma {:induction false} FoldPairsIff(ms: seq<Bounded>, start: nat, cut: nat, fold: Fold)
    requires start <= cut < |ms| && forall k :: 0 <= k < start ==> ms[k].message.role.User?
    ensures Paired(ms[..start] + [SeedMessage(fold)] + ms[cut..]) <==> PairedFrom(ms, cut)
  {
    hide Paired, PairedFrom;
    var now := ms[..start] + [SeedMessage(fold)] + ms[cut..];
    assert now[start] == SeedMessage(fold);
    assert Shifted(ms, now, start, cut);
    hide Shifted;
    if PairedFrom(ms, cut) {
      TailPairs(ms, now, start, cut);
    }
    if Paired(now) {
      TailWasPaired(ms, now, start, cut);
    }
  }

  /** `now` is users up to and including `start`, and then `ms` from `cut` on. */
  ghost predicate Shifted(ms: seq<Bounded>, now: seq<Bounded>, start: nat, cut: nat) {
    && start <= cut < |ms| && |now| == start + 1 + |ms| - cut
    && (forall i :: 0 <= i <= start ==> now[i].message.role.User?)
    && (forall i :: start < i < |now| ==> now[i] == ms[i + cut - start - 1])
  }

  lemma {:induction false} TailPairs(ms: seq<Bounded>, now: seq<Bounded>, start: nat, cut: nat)
    requires Shifted(ms, now, start, cut) && PairedFrom(ms, cut)
    ensures Paired(now)
  {
    hide CallIds, AnsweredIds;
    var shift := cut - start - 1;
    forall i | 0 <= i < |now| && IsTool(now, i) ensures 0 < i && Answers(now, i) {
      assert start < i && IsTool(ms, i + shift);
      assert Answers(ms, i + shift);
    }
    forall i | 0 <= i < |now| && Calling(now[i].message) ensures Answers(now, i + 1) {
      assert start < i && Answers(ms, i + shift + 1);
    }
  }

  lemma {:induction false} TailWasPaired(ms: seq<Bounded>, now: seq<Bounded>, start: nat, cut: nat)
    requires Shifted(ms, now, start, cut) && Paired(now)
    ensures PairedFrom(ms, cut)
  {
    hide CallIds, AnsweredIds;
    var shift := cut - start - 1;
    forall i | cut <= i < |ms| ensures ms[i] == now[i - shift] {
    }
    forall i | cut <= i < |ms| && IsTool(ms, i) ensures cut < i && Answers(ms, i) {
      assert IsTool(now, i - shift) && Answers(now, i - shift);
    }
    forall i | cut <= i < |ms| && Calling(ms[i].message) ensures Answers(ms, i + 1) {
      assert Answers(now, i - shift + 1);
    }
  }

  /** Replacing the messages before a turn by a summary leaves calls and results paired. */
  lemma {:induction false} FoldKeepsPairs(ms: seq<Bounded>, start: nat, cut: nat, fold: Fold)
    requires Paired(ms) && start <= cut < |ms| && !IsTool(ms, cut)
    requires forall k :: 0 <= k < start ==> ms[k].message.role.User?
    ensures Paired(ms[..start] + [SeedMessage(fold)] + ms[cut..])
  {
    hide Answers, Calling;
    FoldPairsIff(ms, start, cut, fold);
  }

  /** Where the cut is a position in the log, a compaction leaves calls and results paired exactly when they are from
      the cut on: it begins with a turn, so it never comes between a call and the results that are there. */
  lemma {:induction false} CompactionPairsIff(view: seq<Event>, asking: RunId, keep: int, fold: Fold, e: Event)
    requires Sorted(view) && Ranged(Standing(view)) && Records(view, asking, keep, fold, e)
    requires CutsTheLog(view, asking, keep)
    ensures var plan := PlanCompaction(Rebuild(view, asking), Through(view), keep).value;
            Paired(Rebuild(view + [e], asking)) <==> PairedFrom(Rebuild(view, asking), plan.cut)
  {
    hide Group, PlanCompaction, Verbatim, Standing, Through, Ranged, Separates, PairedFrom, Cut, Head;
    var ms := Rebuild(view, asking);
    var plan := PlanCompaction(ms, Through(view), keep).value;
    PlanInside(ms, Through(view), keep);
    FoldCommutesIff(view, asking, keep, fold, e);
    RebuiltAfterFold(view, asking, keep, fold, e);
    assert forall k :: 0 <= k < plan.start ==> ms[k] == SeedMessage(Standing(view)[k]);
    FoldPairsIff(ms, plan.start, plan.cut, fold);
  }

  /** So where every call shown is answered, it stays so. A call nobody has answered yet is another matter. */
  lemma {:induction false} CompactionKeepsPairs(view: seq<Event>, asking: RunId, keep: int, fold: Fold, e: Event)
    requires Sorted(view) && Ranged(Standing(view)) && Records(view, asking, keep, fold, e)
    requires CutsTheLog(view, asking, keep)
    requires Paired(Rebuild(view, asking))
    ensures Paired(Rebuild(view + [e], asking))
  {
    hide Rebuild, PlanCompaction, Standing, Through, Ranged, Cut, Head, Answers, Calling, CutsTheLog;
    var ms := Rebuild(view, asking);
    PlanInside(ms, Through(view), keep);
    CutIsATurn(ms, keep);
    CompactionPairsIff(view, asking, keep, fold, e);
  }

  // ---- in the log ---------------------------------------------------------------------

  /** The event at `j` is the result of the call at `i`. */
  ghost predicate Completes(view: seq<Event>, i: nat, j: nat) {
    && i < |view| && view[i].payload.ToolCallRequested?
    && j < |view| && view[j].payload.ToolCallCompleted? && view[j].payload.doneId == view[i].payload.callId
  }

  /** What the event contributes is shown in full. */
  ghost predicate Shows(view: seq<Event>, asking: RunId, e: Event) {
    forall x :: x in Own(e) ==> x in Verbatim(view, asking)
  }

  /** The result is shown and its call is not. */
  ghost predicate Parted(view: seq<Event>, asking: RunId, i: nat, j: nat) {
    Completes(view, i, j) && Shows(view, asking, view[j]) && !Shows(view, asking, view[i])
  }

  lemma {:induction false} LiveIff(es: seq<Event>, e: Event)
    ensures e in Live(es) <==> e in es && !e.payload.ConversationCompacted?
  {
    if es != [] {
      LiveIff(es[..|es| - 1], e);
      assert es == es[..|es| - 1] + [es[|es| - 1]];
    }
  }

  /** What an event contributes itself is placed. */
  lemma {:induction false} OwnIsPlaced(es: seq<Event>, e: Event)
    requires e in es
    ensures forall x :: x in Own(e) ==> x in Emitted(es)
  {
    hide Own, Waiting, Released;
    var init, last := es[..|es| - 1], es[|es| - 1];
    assert es == init + [last];
    if e in init {
      OwnIsPlaced(init, e);
    }
  }

  /** An event that places one item is shown exactly when it is past what the folds reach. */
  lemma {:induction false} ShowsIff(view: seq<Event>, asking: RunId, e: Event)
    requires Sorted(view) && e in view && (e.payload.ToolCallRequested? || e.payload.ToolCallCompleted?)
    ensures Shows(view, asking, e) <==> Through(view) < e.seqNo
  {
    hide Live, Verbatim, Through, Emitted, ItemsAfter, Sorted;
    var x := Own(e)[0];
    LiveIff(view, e);
    OwnIsPlaced(Live(view), e);
    assert x in Own(e) && x in Placed(Live(view), asking);
    VerbatimIsLate(view, asking);
    ItemsAfterIff(Placed(Live(view), asking), Through(view), x);
  }

  /** A result is shown without its call exactly when the folds reach the call and not the result. */
  lemma {:induction false} PartedIff(view: seq<Event>, asking: RunId, i: nat, j: nat)
    requires Sorted(view) && Completes(view, i, j)
    ensures Parted(view, asking, i, j) <==> view[i].seqNo <= Through(view) < view[j].seqNo
  {
    hide Shows, Through, Sorted;
    ShowsIff(view, asking, view[i]);
    ShowsIff(view, asking, view[j]);
  }

  /** Each call in the log up to `t` has its result there as well. */
  ghost predicate Settled(view: seq<Event>, t: Seq) {
    forall i: nat :: i < |view| && view[i].payload.ToolCallRequested? && view[i].seqNo <= t ==> SettledBy(view, i, t)
  }

  ghost predicate SettledBy(view: seq<Event>, i: nat, t: Seq) {
    exists j: nat :: Completes(view, i, j) && view[j].seqNo <= t
  }

  /** No call has two results. */
  ghost predicate CompletedOnce(view: seq<Event>) {
    forall i: nat, j: nat, k: nat :: Completes(view, i, j) && Completes(view, i, k) ==> j == k
  }

  /** However the log goes on from here without another fold, no result is shown without its call. */
  ghost predicate NeverParts(view: seq<Event>, asking: RunId) {
    forall more: seq<Event> :: Goes(view, more) ==> Together(view + more, asking)
  }

  ghost predicate Goes(view: seq<Event>, more: seq<Event>) {
    Sorted(view + more) && NoFolds(more) && CompletedOnce(view + more)
  }

  ghost predicate Together(view: seq<Event>, asking: RunId) {
    forall i: nat, j: nat :: !Parted(view, asking, i, j)
  }

  lemma {:induction false} SettledStays(view: seq<Event>, e: Event, fold: Fold, more: seq<Event>, asking: RunId)
    requires e.payload == ConversationCompacted(fold) && fold.through < e.seqNo && Goes(view + [e], more)
    requires Settled(view, fold.through)
    ensures Together(view + [e] + more, asking)
  {
    hide Through, Standing, Parted;
    var now := view + [e] + more;
    ReachStays(view, e, fold, more);
    forall i: nat, j: nat ensures !Parted(now, asking, i, j) {
      if Completes(now, i, j) {
        PartedIff(now, asking, i, j);
        if now[i].seqNo <= fold.through {
          assert i < |view| by { assert now[|view|] == e; }
          assert now[i] == view[i] && SettledBy(view, i, fold.through);
          var k: nat :| Completes(view, i, k) && view[k].seqNo <= fold.through;
          assert now[k] == view[k] && Completes(now, i, k);
        }
      } else {
        NotParted(now, asking, i, j);
      }
    }
  }

  lemma {:induction false} NotParted(view: seq<Event>, asking: RunId, i: nat, j: nat)
    requires !Completes(view, i, j)
    ensures !Parted(view, asking, i, j)
  {
  }

  lemma {:induction false} ReachStays(view: seq<Event>, e: Event, fold: Fold, more: seq<Event>)
    requires e.payload == ConversationCompacted(fold) && NoFolds(more)
    ensures Through(view + [e] + more) == fold.through
  {
    Compaction.StandingMore(view, e);
    StandingThrough(view + [e], more);
  }

  /** A call up to the fold's end whose result is not there: now, or when it comes, the result stands alone. */
  lemma {:induction false} UnsettledParts(view: seq<Event>, e: Event, fold: Fold, asking: RunId, i: nat)
    requires Sorted(view + [e]) && CompletedOnce(view) && e.payload == ConversationCompacted(fold)
               && fold.through < e.seqNo
    requires i < |view| && view[i].payload.ToolCallRequested? && view[i].seqNo <= fold.through
    requires !SettledBy(view, i, fold.through)
    ensures !NeverParts(view + [e], asking)
  {
    hide Through, Standing, Parted, Sorted, Together;
    if j: nat :| Completes(view, i, j) {
      var now := view + [e];
      assert now[j] == view[j] && now[i] == view[i] && Completes(now, i, j);
      ReachStays(view, e, fold, []);
      assert view + [e] + [] == now;
      PartedIff(now, asking, i, j);
      IsParted(now, asking, i, j);
      OnceMore(view, e);
      GoesNowhere(now);
      assert now + [] == now;
    } else {
      var result := Event(e.seqNo + 1, view[i].run, ToolCallCompleted(view[i].payload.callId, "", "", false));
      var now, j := view + [e] + [result], |view| + 1;
      OneMoreSorted(view + [e], result);
      assert now[j] == result && now[i] == view[i] && Completes(now, i, j);
      ReachStays(view, e, fold, [result]);
      PartedIff(now, asking, i, j);
      IsParted(now, asking, i, j);
      OnceWithTheResult(view, e, i, result);
      assert Goes(view + [e], [result]);
    }
  }

  lemma {:induction false} IsParted(view: seq<Event>, asking: RunId, i: nat, j: nat)
    requires Parted(view, asking, i, j)
    ensures !Together(view, asking)
  {
  }

  lemma {:induction false} OneMoreSorted(view: seq<Event>, e: Event)
    requires Sorted(view) && view != [] && view[|view| - 1].seqNo < e.seqNo
    ensures Sorted(view + [e])
  {
    SortedMore(view, e);
  }

  lemma {:induction false} GoesNowhere(view: seq<Event>)
    requires Sorted(view) && CompletedOnce(view)
    ensures Goes(view, [])
  {
    assert view + [] == view;
  }

  lemma {:induction false} OnceMore(view: seq<Event>, e: Event)
    requires CompletedOnce(view) && e.payload.ConversationCompacted?
    ensures CompletedOnce(view + [e])
  {
    var now := view + [e];
    forall i: nat, j: nat, k: nat | Completes(now, i, j) && Completes(now, i, k) ensures j == k {
      assert Completes(view, i, j) && Completes(view, i, k);
    }
  }

  lemma {:induction false} OnceWithTheResult(view: seq<Event>, e: Event, i: nat, result: Event)
    requires CompletedOnce(view) && e.payload.ConversationCompacted? && i < |view| && view[i].payload.ToolCallRequested?
    requires result.payload.ToolCallCompleted? && result.payload.doneId == view[i].payload.callId
    requires forall j: nat :: !Completes(view, i, j)
    ensures CompletedOnce(view + [e] + [result])
  {
    var now := view + [e] + [result];
    forall h: nat, j: nat, k: nat | Completes(now, h, j) && Completes(now, h, k) ensures j == k {
      assert h < |view| && now[h] == view[h];
      if j < |view| {
        assert Completes(view, h, j);
        assert now[h].payload.callId == view[i].payload.callId ==> Completes(view, i, j);
      }
      if k < |view| {
        assert Completes(view, h, k);
        assert now[h].payload.callId == view[i].payload.callId ==> Completes(view, i, k);
      }
    }
  }

  /** A fold never comes between a call and its result, now or later, exactly when each call up to its end, whichever
      run of the conversation made it, has its result there. */
  lemma {:induction false} FoldNeverPartsIff(view: seq<Event>, e: Event, fold: Fold, asking: RunId)
    requires Sorted(view + [e]) && CompletedOnce(view) && e.payload == ConversationCompacted(fold)
               && fold.through < e.seqNo
    ensures NeverParts(view + [e], asking) <==> Settled(view, fold.through)
  {
    hide Sorted, CompletedOnce, Together, SettledBy, Goes;
    if Settled(view, fold.through) {
      forall more: seq<Event> | Goes(view + [e], more) ensures Together(view + [e] + more, asking) {
        SettledStays(view, e, fold, more, asking);
      }
    } else {
      var i: nat :| i < |view| && view[i].payload.ToolCallRequested? && view[i].seqNo <= fold.through
          && !SettledBy(view, i, fold.through);
      UnsettledParts(view, e, fold, asking, i);
    }
  }
}
