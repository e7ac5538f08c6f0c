/** What comes of a run that waits for a person while its conversation goes on: it compacts beside the next run, or that
    one compacts while its call is open. */
module Overlaps {
  import opened Wrappers
  import opened Domain
  import opened Grouping
  import opened Placement
  import opened Folds
  import opened Estimate
  import opened Compaction
  import opened Tiling
  import opened Meanwhile
  import opened Retention
  import opened History
  import opened Shown
  import opened Counterexamples
  import opened Calls

  // ---- the logs ---------------------------------------------------------------------------

  /** `a` calls a tool and waits for somebody to approve it. The conversation is free for the next message. */
  const PARKED: seq<Event> := OPENING + [
    Event(3, "a", ToolCallRequested("c", "t", "")), Event(4, "a", AssistantMessageCompleted),
    Event(5, "a", RunStateChanged(AwaitingApproval))]

  const CALLED: seq<Item> := [Said(FIRST, Trusted, 1), Call(USE, 3), Done(4)]

  lemma {:induction false} AfterParked()
    ensures At(PARKED, CALLED, [])
  {
    hide At, Of, Without;
    AfterOpening();
    assert PARKED[..2] == OPENING && CALLED[..1] == [Said(FIRST, Trusted, 1)];
    Talks(OPENING, PARKED[2], [], CALLED[..1], PARKED[..3], CALLED[..2]);
    Talks(PARKED[..3], PARKED[3], [], CALLED[..2], PARKED[..4], CALLED);
    NothingAdded(CALLED);
    Talks(PARKED[..4], PARKED[4], [], CALLED, PARKED, CALLED);
  }

  /** It is approved, and `a` goes on. */
  const RESUMED: seq<Event> := PARKED + [Event(6, "a", Other), Event(7, "a", ToolCallCompleted("c", "t", "r", false))]

  const ANSWERED_CALL: seq<Item> := CALLED + [Result(OUTCOME, 7)]

  lemma {:induction false} AfterResumed()
    ensures At(RESUMED, ANSWERED_CALL, [])
  {
    hide At, Of, Without;
    AfterParked();
    NothingAdded(CALLED);
    Talks(PARKED, RESUMED[5], [], CALLED, RESUMED[..6], CALLED);
    Talks(RESUMED[..6], RESUMED[6], [], CALLED, RESUMED, ANSWERED_CALL);
  }

  const ASKED_NEXT := Held("b", SECOND, Trusted, 8)

  /** Somebody asks the next question, and `b` starts at once. */
  const JOINED: seq<Event> := RESUMED + [Event(8, "b", UserMessageAdded(SECOND, Trusted))]

  lemma {:induction false} AfterJoined()
    ensures At(JOINED, ANSWERED_CALL, [ASKED_NEXT])
  {
    hide At, Of, Without, Arrivals, StillWaiting;
    AfterResumed();
    AskedAndQueued(ASKED_NEXT, JOINED[7], Event(0, "b", RunStateChanged(Queued)));
    NothingAdded(ANSWERED_CALL);
    Onwards(RESUMED, JOINED[7], [], ANSWERED_CALL, JOINED, [ASKED_NEXT], ANSWERED_CALL);
  }

  // ---- what the two runs are shown ------------------------------------------------------------

  const SHOWN_TO_A: seq<Bounded> :=
      [SaidMessage(FIRST, Trusted, 1), AssistantMessage("", [USE], 4), ToolMessage([OUTCOME], 7)]

  const SHOWN_TO_B: seq<Bounded> := SHOWN_TO_A + [SaidMessage(SECOND, Trusted, 8)]

  lemma {:induction false} GroupOfBoth()
    ensures Group(ANSWERED_CALL) == SHOWN_TO_A && Group(ANSWERED_CALL + [SaidBy(ASKED_NEXT)]) == SHOWN_TO_B
  {
    hide Feeds;
    var items := ANSWERED_CALL;
    FeedsNothing();
    FeedsMore(EMPTY, items[..0], items[0]);
    FeedsMore(EMPTY, items[..1], items[1]);
    FeedsMore(EMPTY, items[..2], items[2]);
    FeedsMore(EMPTY, items[..3], items[3]);
    FeedsMore(EMPTY, items, SaidBy(ASKED_NEXT));
    assert items[..0] == [] && items[..4] == items;
    assert items[..1] == items[..0] + [items[0]] && items[..2] == items[..1] + [items[1]];
    assert items[..3] == items[..2] + [items[2]] && items[..4] == items[..3] + [items[3]];
  }

  lemma {:induction false} JoinedSorted()
    ensures Sorted(JOINED) && forall e :: e in JOINED ==> 0 < e.seqNo && !e.payload.ConversationCompacted?
  {
    assert forall k :: 0 <= k < |JOINED| ==> JOINED[k].seqNo == k + 1 && !JOINED[k].payload.ConversationCompacted?;
  }

  lemma {:induction false} ShownToA()
    ensures Rebuild(RESUMED, "a") == SHOWN_TO_A && Through(RESUMED) == 0 && Standing(RESUMED) == []
  {
    hide Group, Standing, Verbatim, Rebuild, Through, At, Sorted;
    JoinedSorted();
    assert forall e :: e in RESUMED ==> e in JOINED;
    AfterResumed();
    GroupOfBoth();
    assert Of([], "a") == [] && SaidAll([]) == [];
    NothingAdded(ANSWERED_CALL);
    UnfoldedShown(RESUMED, ANSWERED_CALL, [], "a", ANSWERED_CALL);
  }

  lemma {:induction false} ShownToB()
    ensures Rebuild(JOINED, "b") == SHOWN_TO_B && Through(JOINED) == 0 && Standing(JOINED) == []
  {
    hide Group, Standing, Verbatim, Rebuild, Through, At, Sorted, SaidAll, Of;
    JoinedSorted();
    AfterJoined();
    GroupOfBoth();
    OneHeld(ASKED_NEXT, "b", 0);
    SaidOne(ASKED_NEXT);
    UnfoldedShown(JOINED, ANSWERED_CALL, [ASKED_NEXT], "b", ANSWERED_CALL + [SaidBy(ASKED_NEXT)]);
  }

  // ---- what they fold ---------------------------------------------------------------------------

  /** A window of twenty-two tokens with the usual shares. */
  const WIDER := Budget(22, 0.7, 0.3)

  lemma {:induction false} WiderBudget()
    ensures Keep(WIDER, 0) == 6 && Share(22, 0.7) == 15
  {
    assert 22.0 * 0.3 == 6.6 && 22.0 * 0.7 == 15.4;
  }

  /** What is recorded of a conversation that is over this budget. */
  lemma {:induction false} Plans(view: seq<Event>, asking: RunId, ms: seq<Bounded>, plan: Plan)
    requires Rebuild(view, asking) == ms && EstimateAll(ms) > 15
    requires Cut(ms, 6) == plan.cut && Head(ms) == plan.start < MAX_FOLDS_IN_HEAD && plan.start < plan.cut < |ms|
    requires plan.from == Through(view) + 1 && plan.through == ms[plan.cut - 1].lastSeq > Through(view)
    ensures CompactionOf(view, asking, 0, WIDER, Some("s")) == Some(FoldOf(ms, plan, "s", 0))
    ensures FoldOf(ms, plan, "s", 0).from == plan.from && FoldOf(ms, plan, "s", 0).through == plan.through
  {
    hide Rebuild, Through, Cut, Head, EstimateAll, FoldOf;
    WiderBudget();
    assert PlanCompaction(ms, Through(view), 6) == Some(plan);
    PlanOf(ms, plan, "s", 0);
  }

  lemma {:induction false} SizesOfBoth()
    ensures EstimateMessage(SHOWN_TO_B[0].message) == 5 && EstimateMessage(SHOWN_TO_B[1].message) == 5
    ensures EstimateMessage(SHOWN_TO_B[2].message) == 6 && EstimateMessage(SHOWN_TO_B[3].message) == 5
  {
    OneBlock(Text("q"));
    OneBlock(Text("p"));
    OneBlock(USE);
    OneBlock(OUTCOME);
    assert [] + [USE] == [USE];
  }

  lemma {:induction false} CutForA()
    ensures EstimateAll(SHOWN_TO_A) == 16 && Cut(SHOWN_TO_A, 6) == 1 && Head(SHOWN_TO_A) == 0
  {
    hide EstimateMessage;
    var ms := SHOWN_TO_A;
    SizesOfBoth();
    assert forall k :: 0 <= k < 3 ==> ms[k] == SHOWN_TO_B[k];
    OneMoreInTheTail(ms, 2);
    OneMoreInTheTail(ms, 1);
    OneMoreInTheTail(ms, 0);
    assert ms[3..] == [] && ms[0..] == ms;
    assert TailStart(ms, 6, 2) == 2;
    assert TailStart(ms, 6, 3) == 2;
    assert SkipTools(ms, 3) == 3 && SkipTools(ms, 2) == 3;
    assert BackOffTools(ms, 1) == 1 && BackOffTools(ms, 2) == 1;
  }

  lemma {:induction false} CutForB()
    ensures EstimateAll(SHOWN_TO_B) == 21 && Cut(SHOWN_TO_B, 6) == 3 && Head(SHOWN_TO_B) == 0
  {
    hide EstimateMessage;
    var ms := SHOWN_TO_B;
    SizesOfBoth();
    OneMoreInTheTail(ms, 3);
    OneMoreInTheTail(ms, 2);
    OneMoreInTheTail(ms, 1);
    OneMoreInTheTail(ms, 0);
    assert ms[4..] == [] && ms[0..] == ms;
    assert TailStart(ms, 6, 3) == 3;
    assert TailStart(ms, 6, 4) == 3;
    assert SkipTools(ms, 3) == 3;
  }

  /** The fold `a` plans, and the one `b` plans. */
  function FoldOfA(): Fold {
    FoldOf(SHOWN_TO_A, Plan(0, 1, 1, 1), "s", 0)
  }

  function FoldOfB(): Fold {
    FoldOf(SHOWN_TO_B, Plan(0, 3, 1, 7), "s", 0)
  }

  lemma {:induction false} BothPlan()
    ensures CompactionOf(RESUMED, "a", 0, WIDER, Some("s")) == Some(FoldOfA())
              && FoldOfA().from == FoldOfA().through == 1
    ensures CompactionOf(JOINED, "b", 0, WIDER, Some("s")) == Some(FoldOfB()) && FoldOfB().from == 1
              && FoldOfB().through == 7
  {
    hide CompactionOf, Rebuild, Through, Standing, Cut, Head, EstimateAll, FoldOf;
    ShownToA();
    ShownToB();
    CutForA();
    CutForB();
    Plans(RESUMED, "a", SHOWN_TO_A, Plan(0, 1, 1, 1));
    Plans(JOINED, "b", SHOWN_TO_B, Plan(0, 3, 1, 7));
  }

  // ---- histories that come to a given log ------------------------------------------------------

  function Plays(es: seq<Event>): (steps: seq<Step>)
    requires NoFolds(es)
    ensures |steps| == |es| && forall k :: 0 <= k < |es| ==> steps[k] == Happens(es[k].run, es[k].payload)
  {
    seq(|es|, k requires 0 <= k < |es| => assert es[k] in es; Happens(es[k].run, es[k].payload))
  }

  ghost predicate Numbered(es: seq<Event>, from: Seq) {
    forall k :: 0 <= k < |es| ==> es[k].seqNo == from + k
  }

  lemma {:induction false} Played(steps: seq<Step>, es: seq<Event>)
    requires NoFolds(es) && Numbered(es, NextSeq(Log(steps, {})))
    ensures Log(steps + Plays(es), {}) == Log(steps, {}) + es
  {
    hide Log, FoldFor, NextSeq, NoFolds, Numbered;
    if es == [] {
      NothingPlayed(steps, es);
    } else {
      var init, e := es[..|es| - 1], es[|es| - 1];
      FewerPlayed(es, NextSeq(Log(steps, {})));
      Played(steps, init);
      PlaysMore(steps, init, e);
      LogMore(steps + Plays(init), {}, Happens(e.run, e.payload));
      NextAfter(Log(steps, {}), init);
      AppendedLast(Log(steps, {}), init, e);
    }
  }

  lemma {:induction false} NothingPlayed(steps: seq<Step>, es: seq<Event>)
    requires es == [] && NoFolds(es)
    ensures steps + Plays(es) == steps && Log(steps, {}) + es == Log(steps, {})
  {
    hide Log;
  }

  lemma {:induction false} FewerPlayed(es: seq<Event>, from: Seq)
    requires es != [] && NoFolds(es) && Numbered(es, from)
    ensures var init, e := es[..|es| - 1], es[|es| - 1];
            && NoFolds(init) && Numbered(init, from) && e.seqNo == from + |init| && !e.payload.ConversationCompacted?
            && es == init + [e]
  {
  }

  lemma {:induction false} PlaysMore(steps: seq<Step>, init: seq<Event>, e: Event)
    requires NoFolds(init) && !e.payload.ConversationCompacted?
    ensures NoFolds(init + [e]) && steps + Plays(init + [e]) == (steps + Plays(init)) + [Happens(e.run, e.payload)]
  {
    assert Plays(init + [e]) == Plays(init) + [Happens(e.run, e.payload)];
  }

  lemma {:induction false} NextAfter(log: seq<Event>, es: seq<Event>)
    requires Numbered(es, NextSeq(log))
    ensures NextSeq(log + es) == NextSeq(log) + |es|
  {
    if es != [] {
      assert (log + es)[|log + es| - 1] == es[|es| - 1];
    } else {
      assert log + es == log;
    }
  }

  lemma {:induction false} AppendedLast(log: seq<Event>, init: seq<Event>, e: Event)
    ensures log + (init + [e]) == (log + init) + [e]
  {
  }

  /** With no workers everybody reads everything. */
  lemma {:induction false} AllRead(log: seq<Event>, id: RunId)
    ensures ViewOf(log, id, {}) == log
  {
    if log != [] {
      AllRead(log[..|log| - 1], id);
    }
  }

  function CompactsAs(run: RunId, measured: nat): Step {
    Compacts(run, measured, 0, WIDER, "s")
  }

  // ---- a fold that falls back ---------------------------------------------------------------------

  /** Up to the question to `b`. */
  function Opening(): (steps: seq<Step>)
    ensures |steps| == 8
  {
    JoinedSorted();
    Plays(JOINED)
  }

  lemma {:induction false} NothingBefore<T>(s: seq<T>)
    ensures [] + s == s
  {
  }

  lemma {:induction false} PlayedAlone(es: seq<Event>)
    requires NoFolds(es) && Numbered(es, 1)
    ensures Log(Plays(es), {}) == es
  {
    hide *;
    EmptyLog();
    Played([], es);
    NothingBefore(Plays(es));
    NothingBefore(es);
  }

  lemma {:induction false} OpeningIsPlayed()
    ensures NoFolds(JOINED) && Numbered(JOINED, 1) && Opening() == Plays(JOINED)
    ensures NoFolds(RESUMED) && Numbered(RESUMED, 1) && Opening()[..7] == Plays(RESUMED)
  {
    JoinedSorted();
    assert forall e :: e in RESUMED ==> e in JOINED;
    assert forall k :: 0 <= k < |JOINED| ==> JOINED[k].seqNo == 1 + k;
    assert forall k :: 0 <= k < |RESUMED| ==> RESUMED[k] == JOINED[k];
  }

  lemma {:induction false} OpeningLogs()
    ensures Log(Opening(), {}) == JOINED && Log(Opening()[..7], {}) == RESUMED
  {
    hide Log, NoFolds, Numbered, Opening, Plays;
    OpeningIsPlayed();
    PlayedAlone(JOINED);
    PlayedAlone(RESUMED);
  }

  lemma {:induction false} EmptyLog()
    ensures Log([], {}) == [] && NextSeq([]) == 1
  {
  }

  /** `a`, which measured before `b` was asked, records its fold after `b` has recorded one and the events in it were
      discarded. */
  function FallsBack(): seq<Step> {
    Opening() + [CompactsAs("b", 8), Prunes(0), CompactsAs("a", 7)]
  }

  lemma {:induction false} FirstFold()
    ensures var steps := Opening() + [CompactsAs("b", 8)];
            && FoldFor(Opening(), {}, CompactsAs("b", 8)) == Some(FoldOfB())
            && Log(steps, {}) == JOINED + [Event(9, "b", ConversationCompacted(FoldOfB()))]
            && FoldsOf(steps, {}, "b") == [FoldOfB()] && ReachOf(steps, {}, "b") == 7
  {
    hide Log, Standing, Visible, CompactionOf, FoldOfB, FoldOfA, Opening;
    OpeningLogs();
    BothPlan();
    ShownToB();
    assert Opening()[..8] == Opening();
    AllRead(JOINED, "b");
    LogMore(Opening(), {}, CompactsAs("b", 8));
    assert NextSeq(JOINED) == 9;
    FoldsAfter(Opening(), {}, CompactsAs("b", 8), "b");
    assert StartingBefore([], 1) == [];
  }

  lemma {:induction false} FirstFull()
    ensures forall k :: 0 <= k < 8 ==> JOINED[k] in Full(Opening() + [CompactsAs("b", 8)], {})
  {
    hide Log, Full, FoldFor, Opening;
    FullMore(Opening(), {}, CompactsAs("b", 8));
    FullOfOpening();
  }

  lemma {:induction false} FirstCut(fold: Fold)
    requires fold.through == 7
    ensures CutFor(JOINED + [Event(9, "b", ConversationCompacted(fold))], 0) == 7
  {
    var log := JOINED + [Event(9, "b", ConversationCompacted(fold))];
    assert |log| == 9 && log[8].payload.ConversationCompacted? && log[7].seqNo == 8;
    assert LastFold(log) == 8;
  }

  lemma {:induction false} Discarded()
    ensures var steps := Opening() + [CompactsAs("b", 8), Prunes(0)];
            && FoldsOf(steps, {}, "b") == [FoldOfB()] && ReachOf(steps, {}, "b") == 7 && Furthest(steps, {}) == 7
            && Log(steps, {}) == [JOINED[7], Event(9, "b", ConversationCompacted(FoldOfB()))]
            && (forall k :: 0 <= k < 8 ==> JOINED[k] in Full(steps, {}))
  {
    hide *;
    var before := Opening() + [CompactsAs("b", 8)];
    FirstFold();
    BothPlan();
    AddLast(Opening(), CompactsAs("b", 8), Prunes(0));
    FoldsStayPruned(before);
    LogMore(before, {}, Prunes(0));
    FullMore(before, {}, Prunes(0));
    FirstCut(FoldOfB());
    NothingCut();
    FirstFull();
    PrunedLog(FoldOfB());
  }

  lemma {:induction false} FoldsStayPruned(steps: seq<Step>)
    ensures FoldsOf(steps + [Prunes(0)], {}, "b") == FoldsOf(steps, {}, "b")
    ensures ReachOf(steps + [Prunes(0)], {}, "b") == ReachOf(steps, {}, "b")
  {
    hide FoldsOf, ReachOf;
    FoldsAfter(steps, {}, Prunes(0), "b");
  }

  lemma {:induction false} AddLast<T>(s: seq<T>, a: T, b: T)
    ensures (s + [a]) + [b] == s + [a, b]
  {
  }

  lemma {:induction false} NothingCut()
    ensures Furthest(Opening(), {}) == 0 && Furthest(Opening() + [CompactsAs("b", 8)], {}) == 0
  {
    NoPrunes(Opening());
    NoPrunes(Opening() + [CompactsAs("b", 8)]);
  }

  lemma {:induction false} NoPrunes(steps: seq<Step>)
    requires forall step :: step in steps ==> !step.Prunes?
    ensures Furthest(steps, {}) == 0
  {
    if steps != [] {
      assert steps[|steps| - 1] in steps;
      NoPrunes(steps[..|steps| - 1]);
    }
  }

  lemma {:induction false} FullOfOpening()
    ensures Full(Opening(), {}) == JOINED
  {
    hide Log, Full, Opening;
    LogIsPruned(Opening(), {});
    NothingCut();
    OpeningLogs();
    PrunedNothing(Full(Opening(), {}));
  }

  lemma {:induction false} PrunedLog(fold: Fold)
    ensures Pruned(JOINED + [Event(9, "b", ConversationCompacted(fold))], 7)
         == [JOINED[7], Event(9, "b", ConversationCompacted(fold))]
  {
    var e := Event(9, "b", ConversationCompacted(fold));
    PrunedUpTo(RESUMED, 7);
    PrunedMore(RESUMED, JOINED[7], 7);
    PrunedMore(JOINED, e, 7);
  }

  lemma {:induction false} PrunedUpTo(log: seq<Event>, cut: Seq)
    requires NoFolds(log) && forall e :: e in log ==> e.seqNo <= cut
    ensures Pruned(log, cut) == []
  {
    if log != [] {
      assert log[|log| - 1] in log;
      PrunedUpTo(log[..|log| - 1], cut);
    }
  }

  /** The folds reached to 7 and now reach to 1, and what was between is neither in the log nor in a fold. */
  lemma {:induction false} AFoldFallsBack()
    ensures var steps := FallsBack();
            && !Alone(steps, {})
            && ReachOf(steps[..10], {}, "b") == 7 && ReachOf(steps, {}, "b") == 1
                 && FoldsOf(steps, {}, "b") == [FoldOfA()]
            && Gone(steps, {}, "b", JOINED[2]) && !Covered(FoldsOf(steps, {}, "b"), JOINED[2].seqNo)
  {
    hide Log, Full, Standing, Visible, FoldOfB, FoldOfA, Opening, Pruned, Furthest, CompactionOf, Gone;
    var before := Opening() + [CompactsAs("b", 8), Prunes(0)];
    var step := CompactsAs("a", 7);
    Discarded();
    BothPlan();
    OpeningLogs();
    assert before + [step] == FallsBack() && FallsBack()[..10] == before && before[..7] == Opening()[..7];
    AllRead(RESUMED, "a");
    assert FoldFor(before, {}, step) == Some(FoldOfA());
    FoldsAfter(before, {}, step, "b");
    assert StartingBefore([FoldOfB()], 1) == [] by { NoneStartBefore([FoldOfB()], 1); }
    FullMore(before, {}, step);
    AllRead(Full(before + [step], {}), "b");
    GoneIff(before + [step], {}, "b", JOINED[2]);
    assert FallsBack()[8] == CompactsAs("b", 8) && FallsBack()[10] == step;
    assert CompactTheSame(FallsBack()[8], FallsBack()[10], {});
  }

  // ---- a gap ----------------------------------------------------------------------------------------

  /** `b` goes on to call a tool, and has its result. */
  const MORE: seq<Event> := [
    Event(10, "b", RunStateChanged(Running)), Event(11, "b", ToolCallRequested("d", "t", "")),
    Event(12, "b", AssistantMessageCompleted), Event(13, "b", ToolCallCompleted("d", "t", "r", false))]

  const USE_NEXT: Use := ToolUse("d", "t", "")
  const OUTCOME_NEXT: Outcome := ToolResult("d", "t", "r", false)

  const NEXT_ITEMS: seq<Item> := [Said(SECOND, Trusted, 8), Call(USE_NEXT, 11), Done(12), Result(OUTCOME_NEXT, 13)]

  lemma {:induction false} AfterMoreWork()
    ensures At(JOINED + MORE, ANSWERED_CALL + NEXT_ITEMS, [])
  {
    hide At, Of, Without, Arrivals, StillWaiting;
    var log, items := JOINED + MORE, ANSWERED_CALL + NEXT_ITEMS;
    AfterJoined();
    AskedAndStarted(ASKED_NEXT, MORE[0]);
    assert items[..5] == ANSWERED_CALL + [SaidBy(ASKED_NEXT)];
    Onwards(JOINED, MORE[0], [ASKED_NEXT], ANSWERED_CALL, log[..9], [], items[..5]);
    Talks(log[..9], MORE[1], [], items[..5], log[..10], items[..6]);
    Talks(log[..10], MORE[2], [], items[..6], log[..11], items[..7]);
    Talks(log[..11], MORE[3], [], items[..7], log, items);
  }

  function Later(): seq<Event> {
    JOINED + [Event(9, "b", ConversationCompacted(FoldOfB()))] + MORE
  }

  function ShownLater(): seq<Bounded> {
    [SeedMessage(FoldOfB()), SaidMessage(SECOND, Trusted, 8), AssistantMessage("", [USE_NEXT], 12),
        ToolMessage([OUTCOME_NEXT], 13)]
  }

  lemma {:induction false} GroupOfNext()
    ensures Group(NEXT_ITEMS)
              == [SaidMessage(SECOND, Trusted, 8), AssistantMessage("", [USE_NEXT], 12),
                  ToolMessage([OUTCOME_NEXT], 13)]
  {
    hide Feeds;
    var items := NEXT_ITEMS;
    FeedsNothing();
    FeedsMore(EMPTY, items[..0], items[0]);
    FeedsMore(EMPTY, items[..1], items[1]);
    FeedsMore(EMPTY, items[..2], items[2]);
    FeedsMore(EMPTY, items[..3], items[3]);
    assert items[..0] == [] && items[..4] == items;
    assert items[..1] == items[..0] + [items[0]] && items[..2] == items[..1] + [items[1]];
    assert items[..3] == items[..2] + [items[2]] && items[..4] == items[..3] + [items[3]];
  }

  lemma {:induction false} LaterSorted()
    ensures Sorted(Later()) && NoFolds(MORE) && Numbered(MORE, 10)
    ensures forall e :: e in JOINED + MORE ==> !e.payload.ConversationCompacted?
  {
    JoinedSorted();
    assert forall k :: 0 <= k < |Later()| ==> Later()[k].seqNo == k + 1;
    assert forall k :: 0 <= k < |MORE| ==> MORE[k].seqNo == 10 + k && !MORE[k].payload.ConversationCompacted?;
  }

  lemma {:induction false} LiveConcat(a: seq<Event>, b: seq<Event>)
    ensures Live(a + b) == Live(a) + Live(b)
  {
    if b == [] {
      assert a + b == a && Live(a) + [] == Live(a);
    } else {
      assert a + b == (a + b[..|b| - 1]) + [b[|b| - 1]];
      LiveConcat(a, b[..|b| - 1]);
      LiveMore(a + b[..|b| - 1], b[|b| - 1]);
    }
  }

  lemma {:induction false} LaterIsLive()
    ensures Live(Later()) == JOINED + MORE
  {
    hide Live, FoldOfB;
    var e := Event(9, "b", ConversationCompacted(FoldOfB()));
    LaterSorted();
    LiveConcat(JOINED + [e], MORE);
    LiveMore(JOINED, e);
    AllAreLive(JOINED);
    AllAreLive(MORE);
    NothingAdded(JOINED);
  }

  lemma {:induction false} LaterFolds()
    ensures Standing(Later()) == [FoldOfB()] && Through(Later()) == 7
  {
    hide Standing, FoldOfB, FoldOfA, CompactionOf;
    var e := Event(9, "b", ConversationCompacted(FoldOfB()));
    BothPlan();
    ShownToB();
    LaterSorted();
    Compaction.StandingMore(JOINED, e);
    StandingThrough(JOINED + [e], MORE);
    assert StartingBefore([], 1) == [];
  }

  lemma {:induction false} ShownToBLater()
    ensures Rebuild(Later(), "b") == ShownLater()
  {
    hide Group, Standing, Verbatim, Live, At, Sorted, FoldOfB, Emitted, Waiting, Of;
    LaterSorted();
    LaterFolds();
    LaterIsLive();
    AfterMoreWork();
    VerbatimIsLate(Later(), "b");
    assert Placed(JOINED + MORE, "b")
        == ANSWERED_CALL + NEXT_ITEMS by { PlacedAt(JOINED + MORE, ANSWERED_CALL + NEXT_ITEMS, "b"); }
    LateItems();
    GroupOfNext();
  }

  lemma {:induction false} PlacedAt(log: seq<Event>, items: seq<Item>, asking: RunId)
    requires At(log, items, [])
    ensures Placed(log, asking) == items
  {
    assert Of([], asking) == [] && SaidAll([]) == [];
    NothingAdded(items);
  }

  lemma {:induction false} LateItems()
    ensures ItemsAfter(ANSWERED_CALL + NEXT_ITEMS, 7) == NEXT_ITEMS
  {
    NoItemsAfter(ANSWERED_CALL, 7);
    ItemsAllAfter(NEXT_ITEMS, 7);
    ItemsAfterConcat(ANSWERED_CALL, NEXT_ITEMS, 7);
  }

  lemma {:induction false} SizesLater()
    ensures EstimateMessage(ShownLater()[1].message) == 5 && EstimateMessage(ShownLater()[2].message) == 5
    ensures EstimateMessage(ShownLater()[3].message) == 6
  {
    OneBlock(Text("p"));
    OneBlock(USE_NEXT);
    OneBlock(OUTCOME_NEXT);
    assert [] + [USE_NEXT] == [USE_NEXT];
  }

  lemma {:induction false} CutLater()
    ensures EstimateAll(ShownLater()) > 15 && Cut(ShownLater(), 6) == 2 && Head(ShownLater()) == 1
  {
    hide EstimateMessage, FoldOfB;
    var ms := ShownLater();
    SizesLater();
    OneMoreInTheTail(ms, 3);
    OneMoreInTheTail(ms, 2);
    OneMoreInTheTail(ms, 1);
    OneMoreInTheTail(ms, 0);
    assert ms[4..] == [] && ms[0..] == ms;
    assert TailStart(ms, 6, 3) == 3;
    assert TailStart(ms, 6, 4) == 3;
    assert SkipTools(ms, 4) == 4 && SkipTools(ms, 3) == 4;
    assert BackOffTools(ms, 2) == 2 && BackOffTools(ms, 3) == 2;
    assert HeadFrom(ms, 1) == 1;
  }

  /** The fold `b` plans next. */
  function NextFold(): Fold {
    FoldOf(ShownLater(), Plan(1, 2, 8, 8), "s", 0)
  }

  lemma {:induction false} NextIsPlanned()
    ensures CompactionOf(Later(), "b", 0, WIDER, Some("s")) == Some(NextFold())
              && NextFold().from == NextFold().through == 8
  {
    hide CompactionOf, Rebuild, Through, Standing, Cut, Head, EstimateAll, FoldOf, FoldOfB;
    ShownToBLater();
    LaterFolds();
    CutLater();
    Plans(Later(), "b", ShownLater(), Plan(1, 2, 8, 8));
  }

  function Onward(): (steps: seq<Step>)
    ensures |steps| == 13
  {
    LaterSorted();
    Opening() + [CompactsAs("b", 8)] + Plays(MORE)
  }

  lemma {:induction false} OnwardLogs()
    ensures Log(Onward(), {}) == Later() && FoldsOf(Onward(), {}, "b") == [FoldOfB()]
  {
    hide Log, Standing, Visible, CompactionOf, FoldOfB, Opening, Plays;
    LaterSorted();
    FirstFold();
    Played(Opening() + [CompactsAs("b", 8)], MORE);
    AllRead(Later(), "b");
    LaterFolds();
  }

  /** No fold here ends before anything that was discarded, for nothing is discarded until the end. */
  function LeavesAGap(): seq<Step> {
    Onward() + [CompactsAs("a", 7), CompactsAs("b", 13), Prunes(0)]
  }

  lemma {:induction false} AfterTheFallback()
    ensures var steps := Onward() + [CompactsAs("a", 7)];
            && Log(steps, {}) == Later() + [Event(14, "a", ConversationCompacted(FoldOfA()))]
            && FoldsOf(steps, {}, "b") == [FoldOfA()] && Full(steps, {}) == Log(steps, {})
  {
    hide Log, Full, Standing, Visible, FoldOfB, FoldOfA, Opening, CompactionOf, Pruned, Later;
    var step := CompactsAs("a", 7);
    OnwardLogs();
    OpeningLogs();
    BothPlan();
    assert Onward()[..7] == Opening()[..7];
    AllRead(RESUMED, "a");
    assert FoldFor(Onward(), {}, step) == Some(FoldOfA());
    LogMore(Onward(), {}, step);
    assert NextSeq(Later()) == 14 by { LastOfLater(); }
    FoldsAfter(Onward(), {}, step, "b");
    NoneStartBefore([FoldOfB()], 1);
    GapIsUnpruned();
    NothingPruned(Onward() + [step]);
  }

  lemma {:induction false} LastOfLater()
    ensures NextSeq(Later()) == 14
  {
  }

  lemma {:induction false} NothingPruned(steps: seq<Step>)
    requires forall step :: step in steps ==> !step.Prunes?
    ensures Full(steps, {}) == Log(steps, {}) && Furthest(steps, {}) == 0
  {
    hide Full, Log, Pruned, Sorted;
    NoPrunes(steps);
    LogIsPruned(steps, {});
    PrunedNothing(Full(steps, {}));
  }

  lemma {:induction false} AfterTheGap()
    ensures var steps := Onward() + [CompactsAs("a", 7), CompactsAs("b", 13)];
            && Log(steps, {}) == Later()
                 + [Event(14, "a", ConversationCompacted(FoldOfA())), Event(15, "b", ConversationCompacted(NextFold()))]
            && FoldsOf(steps, {}, "b") == [FoldOfA(), NextFold()] && Full(steps, {}) == Log(steps, {})
                 && Furthest(steps, {}) == 0
  {
    hide Log, Full, Standing, Visible, FoldOfB, FoldOfA, NextFold, Opening, CompactionOf, Pruned, Later, Onward;
    var before, step := Onward() + [CompactsAs("a", 7)], CompactsAs("b", 13);
    AfterTheFallback();
    OnwardLogs();
    NextIsPlanned();
    BothPlan();
    assert before + [step] == Onward() + [CompactsAs("a", 7), CompactsAs("b", 13)] && before[..13] == Onward();
    AllRead(Later(), "b");
    assert FoldFor(before, {}, step) == Some(NextFold());
    LogMore(before, {}, step);
    FoldsAfter(before, {}, step, "b");
    AllStartBefore([FoldOfA()], 8);
    assert (Later() + [Event(14, "a", ConversationCompacted(FoldOfA()))])
        + [Event(15, "b", ConversationCompacted(NextFold()))]
        == Later() + [Event(14, "a", ConversationCompacted(FoldOfA())),
            Event(15, "b", ConversationCompacted(NextFold()))];
    GapIsUnpruned();
    NothingPruned(before + [step]);
  }

  lemma {:induction false} GapIsUnpruned()
    ensures forall step :: step in Onward() + [CompactsAs("a", 7)] ==> !step.Prunes?
    ensures forall step :: step in Onward() + [CompactsAs("a", 7), CompactsAs("b", 13)] ==> !step.Prunes?
  {
    var steps := Onward();
    forall step | step in steps ensures !step.Prunes? {
      var k :| 0 <= k < |steps| && steps[k] == step;
    }
  }

  lemma {:induction false} CutOfTheGap(a: Fold, b: Fold)
    requires b.through == 8
    ensures CutFor(Later() + [Event(14, "a", ConversationCompacted(a)), Event(15, "b", ConversationCompacted(b))], 0)
              == 8
  {
    var log := Later() + [Event(14, "a", ConversationCompacted(a)), Event(15, "b", ConversationCompacted(b))];
    assert |log| == 15 && log[14].payload.ConversationCompacted? && log[13].seqNo == 14;
    assert LastFold(log) == 14;
  }

  /** The standing folds leave a gap between them, which a prune then discards: what was in it is lost, although no fold
      was recorded that ends before something already discarded. */
  lemma {:induction false} AGapIsLost()
    ensures var steps := LeavesAGap();
            && EachReachesTheGone(steps, {}, "b") && !AlwaysContinues(steps, {}, "b")
            && FoldsOf(steps, {}, "b") == [FoldOfA(), NextFold()] && ReachOf(steps, {}, "b") == 8
            && Gone(steps, {}, "b", JOINED[2]) && !Covered(FoldsOf(steps, {}, "b"), JOINED[2].seqNo)
  {
    hide Log, Full, Standing, Visible, FoldOfB, FoldOfA, NextFold, Opening, Pruned, Furthest, CompactionOf, Gone,
        Onward, Later, Through;
    hide AlwaysContinues, EachReachesTheGone, Tiles, CutFor;
    var before, step := Onward() + [CompactsAs("a", 7), CompactsAs("b", 13)], Prunes(0);
    AfterTheGap();
    BothPlan();
    NextIsPlanned();
    assert before + [step] == LeavesAGap();
    FoldsAfter(before, {}, step, "b");
    ReachIs(LeavesAGap(), {}, "b");
    FullMore(before, {}, step);
    CutOfTheGap(FoldOfA(), NextFold());
    AllRead(Full(before + [step], {}), "b");
    JoinedIsLater();
    GapIsUnpruned();
    GoneIff(before + [step], {}, "b", JOINED[2]);
    NoneGone(before);
    ReachesTheGoneMore(before, step, {}, "b");
    GapDoesNotTile();
    FoldsTileIff(LeavesAGap(), {}, "b");
  }

  lemma {:induction false} JoinedIsLater()
    ensures JOINED[2] in Later()
  {
    assert Later()[2] == JOINED[2];
  }

  lemma {:induction false} NoneGone(steps: seq<Step>)
    requires forall step :: step in steps ==> !step.Prunes?
    ensures EachReachesTheGone(steps, {}, "b")
  {
    hide Gone, FoldFor, Furthest;
    forall k: nat, e | k < |steps| ensures !Gone(steps[..k], {}, "b", e) {
      NoPrunes(steps[..k]);
      GoneIff(steps[..k], {}, "b", e);
    }
  }

  lemma {:induction false} GapDoesNotTile()
    ensures !AlwaysTiled(LeavesAGap(), {}, "b")
  {
    hide FoldsOf, FoldOfA, NextFold, CompactionOf, Later, Onward, Log, Full, Furthest;
    var before := Onward() + [CompactsAs("a", 7), CompactsAs("b", 13)];
    AfterTheGap();
    BothPlan();
    NextIsPlanned();
    assert LeavesAGap()[..15] == before;
    var folds := FoldsOf(LeavesAGap()[..15], {}, "b");
    assert folds == [FoldOfA(), NextFold()] && folds[1].from != folds[0].through + 1;
    assert !WellFolded(folds);
  }

  // ---- a call that is still open ----------------------------------------------------------------------

  const ASKED_MEANWHILE := Held("b", SECOND, Trusted, 6)

  /** `b` is asked while `a` waits for its call to be approved. */
  const WAITING: seq<Event> := PARKED + [Event(6, "b", UserMessageAdded(SECOND, Trusted))]

  const SHOWN_WAITING: seq<Bounded> :=
    [SaidMessage(FIRST, Trusted, 1), AssistantMessage("", [USE], 4), SaidMessage(SECOND, Trusted, 6)]

  lemma {:induction false} AfterWaiting()
    ensures At(WAITING, CALLED, [ASKED_MEANWHILE])
  {
    hide At, Of, Without, Arrivals, StillWaiting;
    AfterParked();
    AskedAndQueued(ASKED_MEANWHILE, WAITING[5], Event(0, "b", RunStateChanged(Queued)));
    NothingAdded(CALLED);
    Onwards(PARKED, WAITING[5], [], CALLED, WAITING, [ASKED_MEANWHILE], CALLED);
  }

  lemma {:induction false} GroupOfWaiting()
    ensures Group(CALLED + [SaidBy(ASKED_MEANWHILE)]) == SHOWN_WAITING
  {
    hide Feeds;
    var items := CALLED;
    FeedsNothing();
    FeedsMore(EMPTY, items[..0], items[0]);
    FeedsMore(EMPTY, items[..1], items[1]);
    FeedsMore(EMPTY, items[..2], items[2]);
    FeedsMore(EMPTY, items, SaidBy(ASKED_MEANWHILE));
    assert items[..0] == [] && items[..3] == items;
    assert items[..1] == items[..0] + [items[0]] && items[..2] == items[..1] + [items[1]];
    assert items[..3] == items[..2] + [items[2]];
  }

  lemma {:induction false} WaitingSorted()
    ensures Sorted(WAITING) && forall e :: e in WAITING ==> 0 < e.seqNo && !e.payload.ConversationCompacted?
  {
    assert forall k :: 0 <= k < |WAITING| ==> WAITING[k].seqNo == k + 1 && !WAITING[k].payload.ConversationCompacted?;
  }

  lemma {:induction false} ShownWhileWaiting()
    ensures Rebuild(WAITING, "b") == SHOWN_WAITING && Through(WAITING) == 0 && Standing(WAITING) == []
  {
    hide Group, Standing, Verbatim, Rebuild, Through, At, Sorted, SaidAll, Of;
    WaitingSorted();
    AfterWaiting();
    GroupOfWaiting();
    OneHeld(ASKED_MEANWHILE, "b", 0);
    SaidOne(ASKED_MEANWHILE);
    UnfoldedShown(WAITING, CALLED, [ASKED_MEANWHILE], "b", CALLED + [SaidBy(ASKED_MEANWHILE)]);
  }

  lemma {:induction false} CutWhileWaiting()
    ensures EstimateAll(SHOWN_WAITING) == 15 && Cut(SHOWN_WAITING, 5) == 2 && Head(SHOWN_WAITING) == 0
  {
    hide EstimateMessage;
    var ms := SHOWN_WAITING;
    SizesOfBoth();
    assert ms[0] == SHOWN_TO_B[0] && ms[1] == SHOWN_TO_B[1] && ms[2].message == SHOWN_TO_B[3].message;
    OneMoreInTheTail(ms, 2);
    OneMoreInTheTail(ms, 1);
    OneMoreInTheTail(ms, 0);
    assert ms[3..] == [] && ms[0..] == ms;
    assert TailStart(ms, 5, 2) == 2;
    assert TailStart(ms, 5, 3) == 2;
    assert SkipTools(ms, 2) == 2;
  }

  function FoldOverTheCall(): Fold {
    FoldOf(SHOWN_WAITING, Plan(0, 2, 1, 4), "s", 0)
  }

  lemma {:induction false} CallIsFolded()
    ensures CompactionOf(WAITING, "b", 0, SMALL, Some("s")) == Some(FoldOverTheCall())
    ensures FoldOverTheCall().from == 1 && FoldOverTheCall().through == 4
  {
    hide Rebuild, Through, Cut, Head, EstimateAll, FoldOf, Standing;
    ShownWhileWaiting();
    CutWhileWaiting();
    SmallBudget();
    assert PlanCompaction(SHOWN_WAITING, 0, 5) == Some(Plan(0, 2, 1, 4));
    PlanOf(SHOWN_WAITING, Plan(0, 2, 1, 4), "s", 0);
  }

  /** `b` records its fold and starts; the call is approved, and its result comes. */
  function Approved(): seq<Event> {
    WAITING + [Event(7, "b", ConversationCompacted(FoldOverTheCall()))] + REST
  }

  const REST: seq<Event> := [
    Event(8, "b", RunStateChanged(Running)), Event(9, "a", Other),
        Event(10, "a", ToolCallCompleted("c", "t", "r", false))]

  const REST_ITEMS: seq<Item> := [Said(SECOND, Trusted, 6), Result(OUTCOME, 10)]

  lemma {:induction false} AfterRest()
    ensures At(WAITING + REST, CALLED + REST_ITEMS, [])
  {
    hide At, Of, Without, Arrivals, StillWaiting;
    var log, items := WAITING + REST, CALLED + REST_ITEMS;
    AfterWaiting();
    AskedAndStarted(ASKED_MEANWHILE, REST[0]);
    assert items[..4] == CALLED + [SaidBy(ASKED_MEANWHILE)];
    Onwards(WAITING, REST[0], [ASKED_MEANWHILE], CALLED, log[..7], [], items[..4]);
    NothingAdded(items[..4]);
    Talks(log[..7], REST[1], [], items[..4], log[..8], items[..4]);
    Talks(log[..8], REST[2], [], items[..4], log, items);
  }

  lemma {:induction false} ApprovedSorted()
    ensures Sorted(Approved()) && NoFolds(REST)
    ensures forall e :: e in WAITING + REST ==> !e.payload.ConversationCompacted?
  {
    WaitingSorted();
    assert forall k :: 0 <= k < |Approved()| ==> Approved()[k].seqNo == k + 1;
    assert forall k :: 0 <= k < |REST| ==> !REST[k].payload.ConversationCompacted?;
  }

  lemma {:induction false} ApprovedFolds()
    ensures Standing(Approved()) == [FoldOverTheCall()] && Through(Approved()) == 4
              && Live(Approved()) == WAITING + REST
  {
    hide Standing, Live, FoldOverTheCall, CompactionOf;
    var e := Event(7, "b", ConversationCompacted(FoldOverTheCall()));
    CallIsFolded();
    ShownWhileWaiting();
    ApprovedSorted();
    Compaction.StandingMore(WAITING, e);
    StandingThrough(WAITING + [e], REST);
    assert StartingBefore([], 1) == [];
    LiveConcat(WAITING + [e], REST);
    LiveMore(WAITING, e);
    AllAreLive(WAITING);
    AllAreLive(REST);
    NothingAdded(WAITING);
  }

  lemma {:induction false} GroupOfRest()
    ensures Group(REST_ITEMS) == [SaidMessage(SECOND, Trusted, 6), ToolMessage([OUTCOME], 10)]
  {
    hide Feeds;
    var items := REST_ITEMS;
    FeedsNothing();
    FeedsMore(EMPTY, items[..0], items[0]);
    FeedsMore(EMPTY, items[..1], items[1]);
    assert items[..0] == [] && items[..2] == items;
    assert items[..1] == items[..0] + [items[0]] && items[..2] == items[..1] + [items[1]];
  }

  lemma {:induction false} RestIsLate()
    ensures ItemsAfter(CALLED + REST_ITEMS, 4) == REST_ITEMS
  {
    NoItemsAfter(CALLED, 4);
    ItemsAllAfter(REST_ITEMS, 4);
    ItemsAfterConcat(CALLED, REST_ITEMS, 4);
  }

  lemma {:induction false} ToolsNeedTheirCalls(ms: seq<Bounded>, i: nat)
    requires 0 < i < |ms| && IsTool(ms, i) && ms[i - 1].message.role.User?
    ensures !Paired(ms)
  {
  }

  /** `b` folds past the call `a` has open. When the call is approved and done, `a` is shown its result without it. */
  lemma {:induction false} AResultStandsAlone()
    ensures CompactionOf(WAITING, "b", 0, SMALL, Some("s")) == Some(FoldOverTheCall())
    ensures !Settled(WAITING, FoldOverTheCall().through)
    ensures Rebuild(Approved(), "a")
         == [SeedMessage(FoldOverTheCall()), SaidMessage(SECOND, Trusted, 6), ToolMessage([OUTCOME], 10)]
    ensures Parted(Approved(), "a", 2, 9) && !Paired(Rebuild(Approved(), "a"))
  {
    hide Group, Standing, Verbatim, Live, At, Sorted, FoldOverTheCall, Emitted, Waiting, Of, Through, CompactionOf,
        Parted, Paired;
    CallIsFolded();
    ApprovedSorted();
    ApprovedFolds();
    AfterRest();
    VerbatimIsLate(Approved(), "a");
    PlacedAt(WAITING + REST, CALLED + REST_ITEMS, "a");
    GroupOfRest();
    RestIsLate();
    assert Completes(Approved(), 2, 9);
    PartedIff(Approved(), "a", 2, 9);
    ToolsNeedTheirCalls(Rebuild(Approved(), "a"), 2);
    NotSettled();
  }

  lemma {:induction false} NotSettled()
    ensures !Settled(WAITING, 4)
  {
    assert WAITING[2].payload.ToolCallRequested? && WAITING[2].seqNo <= 4;
    assert forall j: nat :: j < |WAITING| ==> !WAITING[j].payload.ToolCallCompleted?;
    assert !SettledBy(WAITING, 2, 4);
  }
}
