/** Logs on which what compaction promises does not hold. */
module Counterexamples {
  import opened Wrappers
  import opened Domain
  import opened Grouping
  import opened Placement
  import opened Folds
  import opened Estimate
  import opened Compaction
  import opened Meanwhile
  import opened Retention

  const FIRST := [Text("q")]
  const SECOND := [Text("p")]
  const ASKED_FIRST := Held("a", FIRST, Trusted, 1)
  const ASKED_SECOND := Held("b", SECOND, Trusted, 3)

  /** What a log has placed and what it has waiting. */
  ghost predicate At(log: seq<Event>, items: seq<Item>, held: seq<Held>) {
    Emitted(log) == items && Waiting(log) == held
  }

  lemma {:induction false} Onwards(log: seq<Event>, e: Event, held: seq<Held>, items: seq<Item>,
                                   now: seq<Event>, left: seq<Held>, all: seq<Item>)
    requires At(log, items, held) && now == log + [e]
    requires left == StillWaiting(held, e) && all == items + Arrivals(held, e)
    ensures At(now, all, left)
  {
    OneMore(log, e);
  }

  lemma {:induction false} AskedAndStarted(h: Held, start: Event)
    requires Started(start) && !Ended(start) && start.run == h.run && start.payload.RunStateChanged?
    ensures Arrivals([h], start) == [SaidBy(h)] && StillWaiting([h], start) == []
  {
    hide Of, Without, SaidAll;
    OneHeld(h, h.run, 0);
    SaidOne(h);
    NothingAdded([SaidBy(h)]);
    assert Own(start) == [];
  }

  lemma {:induction false} SaidOne(h: Held)
    ensures SaidAll([h]) == [SaidBy(h)] && SaidAll([]) == []
  {
  }

  lemma {:induction false} NobodyOf(held: seq<Held>, run: RunId)
    requires forall h :: h in held ==> h.run != run
    ensures Of(held, run) == [] && Without(held, run) == held
  {
    if held != [] {
      var init, last := held[..|held| - 1], held[|held| - 1];
      assert last in held && held == init + [last];
      NobodyOf(init, run);
    }
  }

  lemma {:induction false} NothingSaid(own: seq<Item>)
    ensures SaidAll([]) + own == own
  {
  }

  /** An event of a run with nothing waiting adds what it says itself and leaves the others waiting. */
  lemma {:induction false} Talks(log: seq<Event>, e: Event, held: seq<Held>, items: seq<Item>, now: seq<Event>,
      all: seq<Item>)
    requires At(log, items, held) && now == log + [e] && all == items + Own(e)
    requires !IsQuestion(e) && forall h :: h in held ==> h.run != e.run
    ensures At(now, all, held)
  {
    hide Of, Without, SaidAll, Emitted, Waiting, At;
    NobodyOf(held, e.run);
    assert Released(held, e) == [] && StillWaiting(held, e) == held;
    NothingSaid(Own(e));
    Onwards(log, e, held, items, now, held, all);
  }

  // ---- a question placed behind another run's answer -----------------------------------

  /** Run `a` is asked something and starts. */
  const OPENING: seq<Event> :=
      [Event(1, "a", UserMessageAdded(FIRST, Trusted)), Event(2, "a", RunStateChanged(Running))]

  /** Run `b` is asked something and has to wait. */
  const OVERLAP: seq<Event> :=
      OPENING + [Event(3, "b", UserMessageAdded(SECOND, Trusted)), Event(4, "b", RunStateChanged(Queued))]

  /** `a` answers and is done. Next is `b`, which compacts before it records that it is running. */
  const QUEUED: seq<Event> :=
    OVERLAP + [Event(5, "a", AssistantTextDelta("ok")), Event(6, "a", AssistantMessageCompleted),
        Event(7, "a", RunStateChanged(Completed))]

  lemma {:induction false} NothingYet()
    ensures At([], [], [])
  {
  }

  lemma {:induction false} AfterOpening()
    ensures At(OPENING, [Said(FIRST, Trusted, 1)], [])
  {
    hide At, Of, Without;
    NothingYet();
    Onwards([], OPENING[0], [], [], OPENING[..1], [ASKED_FIRST], []);
    AskedAndStarted(ASKED_FIRST, OPENING[1]);
    Onwards(OPENING[..1], OPENING[1], [ASKED_FIRST], [], OPENING, [], [Said(FIRST, Trusted, 1)]);
  }

  lemma {:induction false} AskedAndQueued(h: Held, asked: Event, queued: Event)
    requires asked == Event(h.at, h.run, UserMessageAdded(h.content, h.trust)) && h.run != NO_RUN
    requires queued.run == h.run && queued.payload == RunStateChanged(Queued)
    ensures Arrivals([], asked) == [] && StillWaiting([], asked) == [h]
    ensures Arrivals([h], queued) == [] && StillWaiting([h], queued) == [h]
  {
  }

  lemma {:induction false} AfterOverlap()
    ensures At(OVERLAP, [Said(FIRST, Trusted, 1)], [ASKED_SECOND])
  {
    hide At, Of, Without, Arrivals, StillWaiting;
    var items: seq<Item> := [Said(FIRST, Trusted, 1)];
    AfterOpening();
    AskedAndQueued(ASKED_SECOND, OVERLAP[2], OVERLAP[3]);
    NothingAdded(items);
    Onwards(OPENING, OVERLAP[2], [], items, OVERLAP[..3], [ASKED_SECOND], items);
    Onwards(OVERLAP[..3], OVERLAP[3], [ASKED_SECOND], items, OVERLAP, [ASKED_SECOND], items);
  }

  const ANSWERED: seq<Item> := [Said(FIRST, Trusted, 1), Reply("ok", 5), Done(6)]

  lemma {:induction false} AfterAll()
    ensures At(QUEUED, ANSWERED, [ASKED_SECOND])
  {
    hide At, Of, Without, Arrivals, StillWaiting;
    var items: seq<Item> := [Said(FIRST, Trusted, 1)];
    var more: seq<Item> := [Said(FIRST, Trusted, 1), Reply("ok", 5)];
    AfterOverlap();
    Talks(OVERLAP, QUEUED[4], [ASKED_SECOND], items, QUEUED[..5], more);
    Talks(QUEUED[..5], QUEUED[5], [ASKED_SECOND], more, QUEUED[..6], ANSWERED);
    NothingAdded(ANSWERED);
    Talks(QUEUED[..6], QUEUED[6], [ASKED_SECOND], ANSWERED, QUEUED, ANSWERED);
  }

  /** What `b` is shown: its own question last. */
  const PLACED: seq<Item> := ANSWERED + [Said(SECOND, Trusted, 3)]

  const SHOWN: seq<Bounded> :=
    [SaidMessage(FIRST, Trusted, 1), AssistantMessage("ok", [], 6), SaidMessage(SECOND, Trusted, 3)]

  lemma {:induction false} FeedsMore(d: Draft, items: seq<Item>, x: Item)
    ensures Feeds(d, items + [x]) == Feed(Feeds(d, items), x)
  {
    FeedsConcat(d, items, [x]);
    FeedsOne(Feeds(d, items), x);
  }

  lemma {:induction false} GroupOfPlaced()
    ensures Group(PLACED) == SHOWN
  {
    hide Feeds;
    FeedsNothing();
    FeedsMore(EMPTY, [], PLACED[0]);
    FeedsMore(EMPTY, [PLACED[0]], PLACED[1]);
    FeedsMore(EMPTY, [PLACED[0], PLACED[1]], PLACED[2]);
    FeedsMore(EMPTY, [PLACED[0], PLACED[1], PLACED[2]], PLACED[3]);
    assert [] + [PLACED[0]] == [PLACED[0]];
    assert [PLACED[0]] + [PLACED[1]] == [PLACED[0], PLACED[1]];
    assert [PLACED[0], PLACED[1]] + [PLACED[2]] == [PLACED[0], PLACED[1], PLACED[2]];
    assert [PLACED[0], PLACED[1], PLACED[2]] + [PLACED[3]] == PLACED;
  }

  lemma {:induction false} FeedsNothing()
    ensures Feeds(EMPTY, []) == EMPTY
  {
  }

  lemma {:induction false} NothingIsFolded(es: seq<Event>)
    requires forall e :: e in es ==> 0 < e.seqNo && !e.payload.ConversationCompacted?
    ensures Standing(es) == [] && Live(EventsAfter(es, 0)) == es
  {
    if es != [] {
      var init, e := es[..|es| - 1], es[|es| - 1];
      assert es == init + [e];
      assert e in es;
      NothingIsFolded(init);
      AfterMore(init, e, 0);
      LiveMore(EventsAfter(init, 0), e);
    }
  }

  lemma {:induction false} UnfoldedShown(es: seq<Event>, items: seq<Item>, held: seq<Held>, asking: RunId,
      all: seq<Item>)
    requires At(es, items, held) && all == items + SaidAll(if asking == NO_RUN then [] else Of(held, asking))
    requires forall e :: e in es ==> 0 < e.seqNo && !e.payload.ConversationCompacted?
    ensures Standing(es) == [] && Through(es) == 0 && Verbatim(es, asking) == all
    ensures Rebuild(es, asking) == Group(all)
  {
    hide Group, Live, EventsAfter, Emitted, Waiting;
    NothingIsFolded(es);
    assert Seeds([]) + Group(all) == Group(all);
  }

  lemma {:induction false} QueuedSorted()
    ensures Sorted(QUEUED) && forall e :: e in QUEUED ==> 0 < e.seqNo && !e.payload.ConversationCompacted?
  {
  }

  lemma {:induction false} QueuedShown()
    ensures Standing(QUEUED) == [] && Through(QUEUED) == 0 && Verbatim(QUEUED, "b") == PLACED
    ensures Rebuild(QUEUED, "b") == SHOWN && Sorted(QUEUED)
  {
    hide Group, Standing, Verbatim, Rebuild, Through, At, Sorted;
    QueuedSorted();
    AfterAll();
    GroupOfPlaced();
    hide SaidAll, Of;
    OneHeld(ASKED_SECOND, "b", 0);
    SaidOne(ASKED_SECOND);
    UnfoldedShown(QUEUED, ANSWERED, [ASKED_SECOND], "b", PLACED);
  }

  lemma {:induction false} ShownSizes()
    ensures EstimateMessage(SHOWN[2].message) == 5 && EstimateMessage(SHOWN[1].message) == 5
              && EstimateMessage(SHOWN[0].message) == 5
  {
    OneBlock(Text("p"));
    OneBlock(Text("q"));
    OneBlock(Text("ok"));
    assert SHOWN[1].message.content == [Text("ok")];
  }

  lemma {:induction false} OneBlock(b: Block)
    ensures EstimateBlocks([b]) == EstimateBlock(b)
  {
    assert [b][..0] == [];
  }

  lemma {:induction false} ShownCut()
    ensures EstimateAll(SHOWN) == 15 && Cut(SHOWN, 5) == 2 && Head(SHOWN) == 0
  {
    hide EstimateMessage;
    ShownSizes();
    OneMoreInTheTail(SHOWN, 2);
    OneMoreInTheTail(SHOWN, 1);
    OneMoreInTheTail(SHOWN, 0);
    assert SHOWN[3..] == [] && SHOWN[0..] == SHOWN;
    assert TailStart(SHOWN, 5, 3) == 2;
  }

  /** A window of seventeen tokens, with no shares named, so the usual ones. */
  const SMALL := Budget(17, 0.0, 0.0)

  /** The fold that `b` records before its first turn. */
  function Losing(): Fold {
    FoldOf(SHOWN, Plan(0, 2, 1, 6), "s", 0)
  }

  lemma {:induction false} SmallBudget()
    ensures Keep(SMALL, 0) == 5 && Share(17, WithDefaults(SMALL).compactAt) == 11
  {
    assert 17.0 * 0.3 == 5.1 && 17.0 * 0.7 == 11.9;
  }

  /** `b` compacts before its first turn: the fold it records reaches past the question it was asked, and the question
      is gone before anything has answered it. */
  lemma {:induction false} AQuestionIsLost()
    ensures Sorted(QUEUED) && Ranged(Standing(QUEUED))
    ensures CompactionOf(QUEUED, "b", 0, SMALL, Some("s")) == Some(Losing())
    ensures SaidMessage(SECOND, Trusted, 3) in Rebuild(QUEUED, "b")
    ensures Rebuild(QUEUED + [Event(8, "b", ConversationCompacted(Losing()))], "b") == [SeedMessage(Losing())]
  {
    hide Group, Rebuild, Verbatim, Standing, Cut, Head, Through, EstimateAll, FoldOf;
    var e := Event(8, "b", ConversationCompacted(Losing()));
    QueuedShown();
    ShownCut();
    SmallBudget();
    PlanOf(SHOWN, Plan(0, 2, 1, 6), "s", 0);
    assert PlanCompaction(SHOWN, 0, 5) == Some(Plan(0, 2, 1, 6));
    assert CompactionOf(QUEUED, "b", 0, SMALL, Some("s")) == Some(Losing());
    assert SHOWN[2] in SHOWN;
    RebuiltAfterFold(QUEUED, "b", 5, Losing(), e);
    NoItemsAfter(PLACED, 6);
    NoItemsNoMessages();
    assert SHOWN[..0] + [SeedMessage(Losing())] + [] == [SeedMessage(Losing())];
  }

  // ---- a question that waits while another run compacts ---------------------------------

  const USE: Use := ToolUse("c", "t", "")
  const OUTCOME: Outcome := ToolResult("c", "t", "r", false)

  /** `a` calls a tool twice while `b` waits. */
  const WORKING: seq<Event> := OVERLAP + [
    Event(5, "a", ToolCallRequested("c", "t", "")), Event(6, "a", AssistantMessageCompleted),
    Event(7, "a", ToolCallCompleted("c", "t", "r", false)),
    Event(8, "a", ToolCallRequested("c", "t", "")), Event(9, "a", AssistantMessageCompleted),
    Event(10, "a", ToolCallCompleted("c", "t", "r", false))]

  const WORKED: seq<Item> := [
    Said(FIRST, Trusted, 1), Call(USE, 5), Done(6), Result(OUTCOME, 7), Call(USE, 8), Done(9), Result(OUTCOME, 10)]

  lemma {:induction false} AfterWork()
    ensures At(WORKING, WORKED, [ASKED_SECOND])
  {
    hide At, Of, Without, Arrivals, StillWaiting;
    AfterOverlap();
    assert WORKED[..1] == [Said(FIRST, Trusted, 1)];
    Talks(OVERLAP, WORKING[4], [ASKED_SECOND], WORKED[..1], WORKING[..5], WORKED[..2]);
    Talks(WORKING[..5], WORKING[5], [ASKED_SECOND], WORKED[..2], WORKING[..6], WORKED[..3]);
    Talks(WORKING[..6], WORKING[6], [ASKED_SECOND], WORKED[..3], WORKING[..7], WORKED[..4]);
    Talks(WORKING[..7], WORKING[7], [ASKED_SECOND], WORKED[..4], WORKING[..8], WORKED[..5]);
    Talks(WORKING[..8], WORKING[8], [ASKED_SECOND], WORKED[..5], WORKING[..9], WORKED[..6]);
    Talks(WORKING[..9], WORKING[9], [ASKED_SECOND], WORKED[..6], WORKING, WORKED);
  }

  const TURNS: seq<Bounded> := [
    SaidMessage(FIRST, Trusted, 1), AssistantMessage("", [USE], 6), ToolMessage([OUTCOME], 7),
    AssistantMessage("", [USE], 9), ToolMessage([OUTCOME], 10)]

  lemma {:induction false} GroupOfWorked()
    ensures Group(WORKED) == TURNS
  {
    hide Feeds;
    FeedsNothing();
    FeedsMore(EMPTY, WORKED[..0], WORKED[0]);
    FeedsMore(EMPTY, WORKED[..1], WORKED[1]);
    FeedsMore(EMPTY, WORKED[..2], WORKED[2]);
    FeedsMore(EMPTY, WORKED[..3], WORKED[3]);
    FeedsMore(EMPTY, WORKED[..4], WORKED[4]);
    FeedsMore(EMPTY, WORKED[..5], WORKED[5]);
    FeedsMore(EMPTY, WORKED[..6], WORKED[6]);
    assert WORKED[..0] == [] && WORKED[..7] == WORKED;
    assert WORKED[..1] == WORKED[..0] + [WORKED[0]] && WORKED[..2] == WORKED[..1] + [WORKED[1]];
    assert WORKED[..3] == WORKED[..2] + [WORKED[2]] && WORKED[..4] == WORKED[..3] + [WORKED[3]];
    assert WORKED[..5] == WORKED[..4] + [WORKED[4]] && WORKED[..6] == WORKED[..5] + [WORKED[5]];
    assert WORKED[..7] == WORKED[..6] + [WORKED[6]];
  }

  lemma {:induction false} TurnSizes()
    ensures EstimateMessage(TURNS[0].message) == 5
    ensures EstimateMessage(TURNS[1].message) == 5 && EstimateMessage(TURNS[2].message) == 6
    ensures EstimateMessage(TURNS[3].message) == 5 && EstimateMessage(TURNS[4].message) == 6
  {
    OneBlock(Text("q"));
    OneBlock(USE);
    OneBlock(OUTCOME);
    assert [] + [USE] == [USE];
  }

  lemma {:induction false} TurnsCut()
    ensures EstimateAll(TURNS) == 27 && Cut(TURNS, 11) == 3 && Head(TURNS) == 0
  {
    hide EstimateMessage;
    TurnSizes();
    OneMoreInTheTail(TURNS, 4);
    OneMoreInTheTail(TURNS, 3);
    OneMoreInTheTail(TURNS, 2);
    OneMoreInTheTail(TURNS, 1);
    OneMoreInTheTail(TURNS, 0);
    assert TURNS[5..] == [] && TURNS[0..] == TURNS;
    assert TailStart(TURNS, 11, 3) == 3;
    assert TailStart(TURNS, 11, 4) == 3;
    assert TailStart(TURNS, 11, 5) == 3;
    assert SkipTools(TURNS, 3) == 3;
  }

  const MEDIUM := Budget(38, 0.7, 0.3)

  lemma {:induction false} MediumBudget()
    ensures Keep(MEDIUM, 0) == 11 && Share(38, 0.7) == 26
  {
    assert 38.0 * 0.3 == 11.4 && 38.0 * 0.7 == 26.6;
  }

  /** The fold `a` records between two of its turns. */
  function Swallowing(): Fold {
    FoldOf(TURNS, Plan(0, 3, 1, 7), "s", 0)
  }

  lemma {:induction false} WorkingSorted()
    ensures Sorted(WORKING) && forall e :: e in WORKING ==> 0 < e.seqNo && !e.payload.ConversationCompacted?
  {
    assert forall k :: 0 <= k < |WORKING| ==> WORKING[k].seqNo == k + 1 && !WORKING[k].payload.ConversationCompacted?;
  }

  lemma {:induction false} WorkingShown()
    ensures Sorted(WORKING) && Standing(WORKING) == [] && Through(WORKING) == 0 && Rebuild(WORKING, "a") == TURNS
    ensures Unanswered(WORKING, ASKED_SECOND)
  {
    hide Group, Standing, Verbatim, Rebuild, Through, At, Sorted;
    WorkingSorted();
    AfterWork();
    GroupOfWorked();
    OneHeld(ASKED_SECOND, "a", 0);
    assert SaidAll([]) == [];
    NothingAdded(WORKED);
    UnfoldedShown(WORKING, WORKED, [ASKED_SECOND], "a", WORKED);
    AllAreLive(WORKING);
    assert Waiting(WORKING) == [ASKED_SECOND] by { WaitingAt(WORKING, WORKED, [ASKED_SECOND]); }
  }

  lemma {:induction false} WaitingAt(log: seq<Event>, items: seq<Item>, held: seq<Held>)
    requires At(log, items, held)
    ensures Waiting(log) == held
  {
  }

  lemma {:induction false} AllAreLive(es: seq<Event>)
    requires forall e :: e in es ==> !e.payload.ConversationCompacted?
    ensures Live(es) == es
  {
    if es != [] {
      var init, e := es[..|es| - 1], es[|es| - 1];
      assert es == init + [e] && e in es;
      AllAreLive(init);
    }
  }

  lemma {:induction false} SwallowingIsRecorded()
    ensures CompactionOf(WORKING, "a", 0, MEDIUM, Some("s")) == Some(Swallowing()) && Swallowing().through == 7
    ensures Through(WORKING + [Event(11, "a", ConversationCompacted(Swallowing()))]) == 7
  {
    hide Group, Rebuild, Verbatim, Standing, Cut, Head, Through, EstimateAll, FoldOf;
    WorkingShown();
    TurnsCut();
    MediumBudget();
    PlanOf(TURNS, Plan(0, 3, 1, 7), "s", 0);
    assert PlanCompaction(TURNS, 0, 11) == Some(Plan(0, 3, 1, 7));
    var e := Event(11, "a", ConversationCompacted(Swallowing()));
    StandingAfterPlan(WORKING, TURNS, "a", 11, Swallowing(), e);
    ReachesTo(WORKING, e, Swallowing(), 0);
  }

  /** `b` asks while `a` works, and `a` compacts. The question is shown to `b` before that; after it, whatever `a`
      and `b` do next, it is shown to nobody. */
  lemma {:induction false} AWaitingQuestionIsSwallowed(more: seq<Event>, asking: RunId)
    requires var view := WORKING + [Event(11, "a", ConversationCompacted(Swallowing()))] + more;
             Sorted(view) && Through(view) >= 7
    ensures CompactionOf(WORKING, "a", 0, MEDIUM, Some("s")) == Some(Swallowing())
    ensures SaidMessage(SECOND, Trusted, 3) in Group(Verbatim(WORKING, "b"))
    ensures var view := WORKING + [Event(11, "a", ConversationCompacted(Swallowing()))] + more;
            SaidMessage(SECOND, Trusted, 3) !in Group(Verbatim(view, asking))
  {
    hide Group, Rebuild, Verbatim, Standing, Through, Swallowing, CompactionOf, Unanswered;
    WorkingShown();
    SwallowingIsRecorded();
    ShownWhileUnansweredIff(WORKING, ASKED_SECOND);
    NeverShownAgain(WORKING + [Event(11, "a", ConversationCompacted(Swallowing()))] + more, asking, 3);
  }

  // ---- a worker's fold ------------------------------------------------------------------

  /** Run `a` waits while its worker `w` calls a tool and compacts its own conversation. */
  const DELEGATING: seq<Event> := OPENING + [
    Event(3, "w", UserMessageAdded(SECOND, Untrusted)),
    Event(4, "w", RunStateChanged(Running)),
    Event(5, "w", ToolCallRequested("c", "t", "")),
    Event(6, "w", AssistantMessageCompleted),
    Event(7, "w", ToolCallCompleted("c", "t", "r", false)),
    Event(8, "w", ConversationCompacted(Fold("s", 1, 3, 1, 0, 0)))]

  lemma {:induction false} OpeningSeen(n: nat)
    requires 2 <= n <= |DELEGATING|
    ensures Visible(DELEGATING[..n], Run("a", false), {"w"}) == OPENING
  {
    var run, workers := Run("a", false), {"w"};
    hide Visible;
    if n == 2 {
      VisibleMore([], OPENING[0], run, workers);
      VisibleMore([] + [OPENING[0]], OPENING[1], run, workers);
      assert OPENING == [] + [OPENING[0]] + [OPENING[1]] && DELEGATING[..2] == OPENING;
      NoneSeen(run, workers);
    } else {
      OpeningSeen(n - 1);
      assert DELEGATING[..n] == DELEGATING[..n - 1] + [DELEGATING[n - 1]];
      VisibleMore(DELEGATING[..n - 1], DELEGATING[n - 1], run, workers);
    }
  }

  lemma {:induction false} NoneSeen(run: Run, workers: set<RunId>)
    ensures Visible([], run, workers) == []
  {
  }

  /** The cut is taken from the worker's fold, and what `a` was asked is discarded with it although nothing of
      the conversation `a` belongs to was ever folded. */
  lemma {:induction false} AWorkersFoldDiscardsTheConversation()
    ensures Sorted(DELEGATING) && CutFor(DELEGATING, 0) == 3
    ensures var run, left := Run("a", false), Pruned(DELEGATING, CutFor(DELEGATING, 0));
            && Standing(Visible(DELEGATING, run, {"w"})) == []
            && Rebuild(Visible(left, run, {"w"}), "a") != Rebuild(Visible(DELEGATING, run, {"w"}), "a")
  {
    hide Visible, Standing, Pruned, Rebuild, Verbatim, Emitted, Waiting, LastFold, Live, EventsAfter, Group;
    var run := Run("a", false);
    OpeningSeen(|DELEGATING|);
    assert DELEGATING[..|DELEGATING|] == DELEGATING;
    NothingIsFolded(OPENING);
    AfterOpening();
    TheirsIsLast();
    assert Said(FIRST, Trusted, 1) in Verbatim(OPENING, "a") by { OpeningVerbatim(); }
    SafeForOthersIff(DELEGATING, 0, run, {"w"});
  }

  lemma {:induction false} TheirsIsLast()
    ensures LastFold(DELEGATING) == 7
  {
  }

  lemma {:induction false} OpeningVerbatim()
    ensures Verbatim(OPENING, "a") == [Said(FIRST, Trusted, 1)]
  {
    AfterOpening();
    assert Of([], "a") == [];
    UnfoldedShown(OPENING, [Said(FIRST, Trusted, 1)], [], "a", [Said(FIRST, Trusted, 1)]);
  }
}
