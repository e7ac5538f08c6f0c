/** Compaction: what is folded, and that rebuilding from the fold gives back the rest. */
module Compaction {
  import opened Wrappers
  import opened Domain
  import opened Grouping
  import opened Placement
  import opened Folds
  import opened Estimate
  import Conversation

  datatype Plan = Plan(start: nat, cut: nat, from: Seq, through: Seq)

  const MAX_FOLDS_IN_HEAD := 6

  datatype Budget = Budget(window: int, compactAt: real, keepFraction: real)

  function WithDefaults(b: Budget): Budget {
    Budget(b.window, if b.compactAt <= 0.0 then 0.7 else b.compactAt,
           if b.keepFraction <= 0.0 then 0.3 else b.keepFraction)
  }

  /** A share of a window in whole tokens. */
  function Share(window: int, fraction: real): int {
    (window as real * fraction).Floor
  }

  /** Counts the folds at the front of the conversation. */
  method FoldHead(ms: seq<Bounded>) returns (head: nat)
    ensures head == Head(ms)
  {
    head := 0;
    while head < |ms| && ms[head].fold
      invariant head <= |ms| && HeadFrom(ms, head) == Head(ms)
    {
      head := head + 1;
    }
  }

  function HeadFrom(ms: seq<Bounded>, i: nat): (head: nat)
    requires i <= |ms|
    ensures i <= head <= |ms|
    ensures forall k :: i <= k < head ==> ms[k].fold
    ensures head < |ms| ==> !ms[head].fold
    decreases |ms| - i
  {
    if i < |ms| && ms[i].fold then HeadFrom(ms, i + 1) else i
  }

  function Head(ms: seq<Bounded>): nat {
    HeadFrom(ms, 0)
  }

  /** What to fold, and whether folding it is worth doing. */
  function PlanCompaction(ms: seq<Bounded>, alreadyFolded: Seq, keep: int): Option<Plan> {
    var head := Head(ms);
    var cut := Cut(ms, keep);
    if cut <= head then None
    else if CutInside(ms, keep); ms[cut - 1].lastSeq <= alreadyFolded then None
    else if head >= MAX_FOLDS_IN_HEAD then Some(Plan(0, cut, ms[0].fromSeq, ms[cut - 1].lastSeq))
    else Some(Plan(head, cut, alreadyFolded + 1, ms[cut - 1].lastSeq))
  }

  lemma {:induction false} CutInside(ms: seq<Bounded>, keep: int)
    ensures Cut(ms, keep) < |ms|
  {
  }

  function SummaryEstimate(summary: string): nat {
    MESSAGE_OVERHEAD_TOKENS + EstimateText(PREAMBLE + summary)
  }

  /** The number the store gives the next event. */
  function NextSeq(log: seq<Event>): Seq {
    if log == [] then 1 else log[|log| - 1].seqNo + 1
  }

  /** Summarises the older part of a run's conversation when the next request would be too
      large. `summary` is what the model answers, if it answers. The fold that is recorded,
      if any, is returned. */
  method CompactIfNeeded(log: seq<Event>, run: Run, delegated: set<RunId>, overhead: int, given: Budget,
                         summary: Option<string>)
    returns (recorded: Option<Fold>)
    ensures recorded == CompactionOf(Visible(log, run, delegated), run.id, overhead, given, summary)
  {
    hide Rebuild, Visible, EstimateAll, EstimateText, Cut, Head, Through, Standing, Share;
    var budget := WithDefaults(given);
    if budget.window <= 0 {
      return None;
    }
    var ms, alreadyFolded := Conversation.BuildBoundedConversation(log, run, delegated);
    var size := EstimateMessages(ms);
    var before := overhead + size;
    if before <= Share(budget.window, budget.compactAt) {
      return None;
    }
    var keep := Share(budget.window, budget.keepFraction) - overhead;
    var head := FoldHead(ms);
    var cut := ChooseCut(ms, keep);
    if cut <= head {
      return None;
    }
    CutInside(ms, keep);
    var plan := Plan(head, cut, alreadyFolded + 1, ms[cut - 1].lastSeq);
    if plan.through <= alreadyFolded {
      return None;
    }
    if head >= MAX_FOLDS_IN_HEAD {
      plan := plan.(start := 0, from := ms[0].fromSeq);
    }
    if summary.None? {
      return None;
    }
    var kept := EstimateMessages(ms[..plan.start]);
    var rest := EstimateMessages(ms[plan.cut..]);
    var after := overhead + kept + SummaryEstimate(summary.value) + rest;
    recorded := Some(Fold(summary.value, plan.from, plan.through, plan.cut - plan.start, before, after));
  }

  function CompactionOf(view: seq<Event>, asking: RunId, overhead: int, given: Budget, summary: Option<string>)
    : Option<Fold>
  {
    var budget := WithDefaults(given);
    var ms := Rebuild(view, asking);
    var before := overhead + EstimateAll(ms);
    if budget.window <= 0 || before <= Share(budget.window, budget.compactAt) then None
    else
      var keep := Share(budget.window, budget.keepFraction) - overhead;
      var plan := PlanCompaction(ms, Through(view), keep);
      if plan.None? || summary.None? then None
      else
        PlanInside(ms, Through(view), keep);
        Some(FoldOf(ms, plan.value, summary.value, overhead))
  }

  /** Shares that are not named are seven and three tenths of the window; without a window nothing is recorded. */
  lemma {:induction false} UsualShares(view: seq<Event>, asking: RunId, overhead: int, given: Budget,
      summary: Option<string>)
    ensures given.compactAt <= 0.0 ==>
              CompactionOf(view, asking, overhead, given, summary)
              == CompactionOf(view, asking, overhead, given.(compactAt := 0.7), summary)
    ensures given.keepFraction <= 0.0 ==>
              CompactionOf(view, asking, overhead, given, summary)
              == CompactionOf(view, asking, overhead, given.(keepFraction := 0.3), summary)
    ensures given.window <= 0 ==> CompactionOf(view, asking, overhead, given, summary) == None
  {
    hide Rebuild, Through, PlanCompaction, FoldOf, EstimateAll;
  }

  /** A conversation that is longer than its share of the window, byte for byte, is compacted if anything can be
      folded. */
  lemma {:induction false} OverlongIsCompacted(view: seq<Event>, asking: RunId, overhead: int, given: Budget,
      summary: string)
    requires given.window > 0 && given.compactAt > 0.0 && given.keepFraction > 0.0
    requires var ms := Rebuild(view, asking);
             (4 * overhead + Bytes(AllTexts(ms)) + 16 * |ms|) as real > 4.0 * (given.window as real * given.compactAt)
    requires PlanCompaction(Rebuild(view, asking), Through(view),
                            (given.window as real * given.keepFraction).Floor - overhead).Some?
    ensures CompactionOf(view, asking, overhead, given, Some(summary)).Some?
  {
    hide Rebuild, Through, PlanCompaction, FoldOf, EstimateAll, AllTexts;
    SizeLaw(Rebuild(view, asking));
  }

  /** One that fits, with a token's worth to spare for each text in it, is left alone. */
  lemma {:induction false} WhatFitsIsLeftAlone(view: seq<Event>, asking: RunId, overhead: int, given: Budget,
      summary: Option<string>)
    requires given.compactAt > 0.0
    requires var ms := Rebuild(view, asking);
             (4 * overhead + Bytes(AllTexts(ms)) + 16 * |ms| + 3 * |AllTexts(ms)|) as real
               <= 4.0 * (given.window as real * given.compactAt)
    ensures CompactionOf(view, asking, overhead, given, summary) == None
  {
    hide Rebuild, Through, PlanCompaction, FoldOf, EstimateAll, AllTexts;
    SizeLaw(Rebuild(view, asking));
  }

  function FoldOf(ms: seq<Bounded>, plan: Plan, summary: string, overhead: int): Fold
    requires plan.start <= plan.cut <= |ms|
  {
    Fold(summary, plan.from, plan.through, plan.cut - plan.start,
         overhead + EstimateAll(ms),
         overhead + EstimateAll(ms[..plan.start]) + SummaryEstimate(summary) + EstimateAll(ms[plan.cut..]))
  }

  lemma {:induction false} PlanInside(ms: seq<Bounded>, alreadyFolded: Seq, keep: int)
    requires PlanCompaction(ms, alreadyFolded, keep).Some?
    ensures var plan := PlanCompaction(ms, alreadyFolded, keep).value;
            && plan.start <= Head(ms) < plan.cut < |ms|
            && plan.through == ms[plan.cut - 1].lastSeq && alreadyFolded < plan.through
            && plan.cut == Cut(ms, keep)
  {
    hide Cut, Head;
    CutInside(ms, keep);
  }

  // ---- a conversation's shape ------------------------------------------------------

  lemma {:induction false} NoFoldIsPlaced(items: seq<Item>)
    ensures forall m :: m in Group(items) ==> !m.fold
    ensures forall m :: m in Feeds(EMPTY, items).messages ==> !m.fold
  {
    if items != [] {
      NoFoldIsPlaced(items[..|items| - 1]);
    }
  }

  lemma {:induction false} HeadIsTheFolds(view: seq<Event>, asking: RunId)
    ensures Head(Rebuild(view, asking)) == |Standing(view)|
  {
    var ms, n := Rebuild(view, asking), |Standing(view)|;
    NoFoldIsPlaced(Verbatim(view, asking));
    if n < |ms| {
      assert ms[n] == Group(Verbatim(view, asking))[0];
      assert ms[n] in Group(Verbatim(view, asking));
    }
    assert forall k :: 0 <= k < n ==> ms[k] == SeedMessage(Standing(view)[k]);
  }

  /** Folds that each cover some of the log. */
  ghost predicate Ranged(folds: seq<Fold>) {
    forall f :: f in folds ==> f.from <= f.through
  }

  lemma {:induction false} AllStartBefore(folds: seq<Fold>, from: Seq)
    requires forall f :: f in folds ==> f.from < from
    ensures StartingBefore(folds, from) == folds
  {
    if folds != [] {
      var init, last := folds[..|folds| - 1], folds[|folds| - 1];
      assert last in folds;
      AllStartBefore(init, from);
      assert init + [last] == folds;
    }
  }

  lemma {:induction false} NoneStartBefore(folds: seq<Fold>, from: Seq)
    requires forall f :: f in folds ==> from <= f.from
    ensures StartingBefore(folds, from) == []
  {
    if folds != [] {
      assert folds[|folds| - 1] in folds;
      NoneStartBefore(folds[..|folds| - 1], from);
    }
  }

  // ---- rebuilding after a fold -------------------------------------------------------

  /** The record of a compaction, as the store numbers it. */
  function RecordOf(log: seq<Event>, run: Run, fold: Fold): Event {
    Event(NextSeq(log), run.id, ConversationCompacted(fold))
  }

  /** What a run that is not a worker is never mistaken for. */
  ghost predicate Known(run: Run, delegated: set<RunId>) {
    !run.worker ==> run.id !in delegated
  }

  lemma {:induction false} StartsAtTheFirst(folds: seq<Fold>, from: Seq)
    requires StrictStarts(folds) && folds != [] && from == folds[0].from
    ensures StartingBefore(folds, from) == []
  {
    forall f | f in folds ensures from <= f.from {
      var k :| 0 <= k < |folds| && folds[k] == f;
    }
    NoneStartBefore(folds, from);
  }

  lemma {:induction false} StartsAfterTheLast(folds: seq<Fold>, from: Seq)
    requires StrictStarts(folds) && Ranged(folds) && from == (if folds == [] then 0 else folds[|folds| - 1].through) + 1
    ensures StartingBefore(folds, from) == folds
  {
    if folds != [] {
      var last := folds[|folds| - 1];
      assert last in folds;
      forall f | f in folds ensures f.from < from {
        var k :| 0 <= k < |folds| && folds[k] == f;
        assert f.from <= last.from;
      }
    }
    AllStartBefore(folds, from);
  }

  lemma {:induction false} StandingMore(view: seq<Event>, e: Event)
    requires e.payload.ConversationCompacted?
    ensures Standing(view + [e]) == StartingBefore(Standing(view), e.payload.fold.from) + [e.payload.fold]
  {
    assert (view + [e])[..|view|] == view;
  }

  /** The fold takes the place of the folds it condenses and of nothing else. */
  lemma {:induction false} StandingAfterPlan(view: seq<Event>, ms: seq<Bounded>, asking: RunId, keep: int, fold: Fold,
      e: Event)
    requires Ranged(Standing(view)) && ms == Rebuild(view, asking)
    requires PlanCompaction(ms, Through(view), keep).Some?
    requires fold.from == PlanCompaction(ms, Through(view), keep).value.from
    requires e.payload == ConversationCompacted(fold)
    ensures var start := PlanCompaction(ms, Through(view), keep).value.start;
            && start <= |Standing(view)|
            && Standing(view + [e]) == Standing(view)[..start] + [fold]
            && ms[..start] == Seeds(Standing(view)[..start])
  {
    hide Cut, Head, Verbatim, Group, Standing, StartingBefore, Ranged, StrictStarts;
    var standing := Standing(view);
    HeadIsTheFolds(view, asking);
    StandingStartsIncrease(view);
    StandingMore(view, e);
    if |standing| >= MAX_FOLDS_IN_HEAD {
      assert ms[0] == SeedMessage(standing[0]);
      StartsAtTheFirst(standing, fold.from);
    } else {
      StartsAfterTheLast(standing, fold.from);
      assert standing[..|standing|] == standing;
    }
  }

  /** Only the events after the fold are replayed, and the record of the fold is not one of them. */
  lemma {:induction false} ReplayedAfterFold(view: seq<Event>, e: Event, t: Seq, asking: RunId)
    requires Sorted(view) && e.payload.ConversationCompacted? && Through(view) <= t
    ensures Placed(Live(EventsAfter(view + [e], t)), asking) == ItemsAfter(Verbatim(view, asking), t)
  {
    hide Placed, Through;
    var live := Live(EventsAfter(view, Through(view)));
    AfterMore(view, e, t);
    LiveMore(EventsAfter(view, t), e);
    assert Live(EventsAfter(view + [e], t)) == Live(EventsAfter(view, t)) by {
      assert EventsAfter(view, t) + [] == EventsAfter(view, t);
      assert Live(EventsAfter(view, t)) + [] == Live(EventsAfter(view, t));
    }
    AfterAfter(view, Through(view), t);
    LiveAfter(EventsAfter(view, Through(view)), t);
    AfterSorted(view, Through(view));
    LiveSorted(EventsAfter(view, Through(view)));
    PlacedAfter(live, asking, t);
  }

  lemma {:induction false} VerbatimOrdered(view: seq<Event>, asking: RunId)
    requires Sorted(view)
    ensures Ordered(Verbatim(view, asking))
  {
    AfterSorted(view, Through(view));
    LiveSorted(EventsAfter(view, Through(view)));
    PlacedOrdered(Live(EventsAfter(view, Through(view))), asking);
  }

  /** What the run is shown once the fold `planned` is recorded as the event `e`. */
  ghost predicate Commutes(view: seq<Event>, asking: RunId, keep: int, fold: Fold, e: Event)
    requires PlanCompaction(Rebuild(view, asking), Through(view), keep).Some?
  {
    var ms := Rebuild(view, asking);
    var plan := PlanCompaction(ms, Through(view), keep).value;
    PlanInside(ms, Through(view), keep);
    Rebuild(view + [e], asking) == ms[..plan.start] + [SeedMessage(fold)] + ms[plan.cut..]
  }

  ghost predicate Records(view: seq<Event>, asking: RunId, keep: int, fold: Fold, e: Event) {
    && PlanCompaction(Rebuild(view, asking), Through(view), keep).Some?
    && fold.from == PlanCompaction(Rebuild(view, asking), Through(view), keep).value.from
    && fold.through == PlanCompaction(Rebuild(view, asking), Through(view), keep).value.through
    && e.payload == ConversationCompacted(fold)
  }

  /** The cut in the messages and the point recorded in the log are the same place. */
  ghost predicate CutIsALogPosition(view: seq<Event>, asking: RunId, plan: Plan)
    requires |Standing(view)| <= plan.cut
  {
    Separates(Verbatim(view, asking), plan.cut - |Standing(view)|, plan.through)
  }

  lemma {:induction false} VerbatimAfterFold(view: seq<Event>, e: Event, asking: RunId)
    requires Sorted(view) && e.payload.ConversationCompacted? && Through(view) <= Through(view + [e])
    ensures Verbatim(view + [e], asking) == ItemsAfter(Verbatim(view, asking), Through(view + [e]))
  {
    hide Placed, Through, Live, EventsAfter;
    ReplayedAfterFold(view, e, Through(view + [e]), asking);
  }

  /** Recording a fold leaves the folds before its start, the fold, and the items after it. */
  lemma {:induction false} RebuiltAfterFold(view: seq<Event>, asking: RunId, keep: int, fold: Fold, e: Event)
    requires Sorted(view) && Ranged(Standing(view)) && Records(view, asking, keep, fold, e)
    ensures var ms := Rebuild(view, asking);
            var plan := PlanCompaction(ms, Through(view), keep).value;
            && plan.start <= |Standing(view)| == Head(ms) < plan.cut < |ms|
            && Standing(view + [e]) == Standing(view)[..plan.start] + [fold]
            && Verbatim(view + [e], asking) == ItemsAfter(Verbatim(view, asking), plan.through)
            && Rebuild(view + [e], asking)
               == ms[..plan.start] + [SeedMessage(fold)] + Group(ItemsAfter(Verbatim(view, asking), plan.through))
  {
    hide Group, PlanCompaction, Verbatim, Cut, Head, Standing, Through, ItemsAfter, Rebuild, Ranged;
    var ms := Rebuild(view, asking);
    var plan := PlanCompaction(ms, Through(view), keep).value;
    PlanInside(ms, Through(view), keep);
    HeadIsTheFolds(view, asking);
    StandingAfterPlan(view, ms, asking, keep, fold, e);
    ReachesTo(view, e, fold, plan.start);
    VerbatimAfterFold(view, e, asking);
    RebuiltParts(view, e, asking, fold, plan.start, ItemsAfter(Verbatim(view, asking), plan.through));
  }

  /** Folding and rebuilding commute exactly when nothing before the cut is later in the log than
      the fold reaches and nothing after the cut is at or before it. */
  lemma {:induction false} FoldCommutesIff(view: seq<Event>, asking: RunId, keep: int, fold: Fold, e: Event)
    requires Sorted(view) && Ranged(Standing(view)) && Records(view, asking, keep, fold, e)
    ensures var plan := PlanCompaction(Rebuild(view, asking), Through(view), keep).value;
            |Standing(view)| < plan.cut &&
            (Commutes(view, asking, keep, fold, e) <==> CutIsALogPosition(view, asking, plan))
  {
    hide Group, PlanCompaction, Verbatim, Cut, Head, Standing, Through, Separates, ItemsAfter, Rebuild, Ranged;
    var ms := Rebuild(view, asking);
    var plan := PlanCompaction(ms, Through(view), keep).value;
    var n, items := |Standing(view)|, Verbatim(view, asking);
    PlanInside(ms, Through(view), keep);
    RebuiltAfterFold(view, asking, keep, fold, e);
    VerbatimOrdered(view, asking);
    GroupedPart(view, asking, plan.cut);
    CutCommutesIff(items, plan.cut - n, plan.through);
    SameTail(ms[..plan.start] + [SeedMessage(fold)], Group(ItemsAfter(items, plan.through)), ms[plan.cut..]);
  }

  /** The messages from the folds on are those of the verbatim items. */
  lemma {:induction false} GroupedPart(view: seq<Event>, asking: RunId, cut: nat)
    requires |Standing(view)| <= cut <= |Rebuild(view, asking)|
    ensures var ms, n, g := Rebuild(view, asking), |Standing(view)|, Group(Verbatim(view, asking));
            && |ms| == n + |g| && cut - n <= |g| && ms[cut..] == g[cut - n..]
            && (n < cut ==> ms[cut - 1] == g[cut - n - 1])
  {
    hide Group, Verbatim, Standing;
  }

  lemma {:induction false} ReachesTo(view: seq<Event>, e: Event, fold: Fold, start: nat)
    requires start <= |Standing(view)| && Standing(view + [e]) == Standing(view)[..start] + [fold]
    ensures Through(view + [e]) == fold.through
  {
  }

  lemma {:induction false} RebuiltParts(view: seq<Event>, e: Event, asking: RunId, fold: Fold, start: nat,
      items: seq<Item>)
    requires start <= |Standing(view)| && Standing(view + [e]) == Standing(view)[..start] + [fold]
    requires Verbatim(view + [e], asking) == items
    ensures Rebuild(view + [e], asking) == Seeds(Standing(view)[..start]) + [SeedMessage(fold)] + Group(items)
  {
    hide Group, Standing, Verbatim;
    assert Seeds(Standing(view)[..start] + [fold]) == Seeds(Standing(view)[..start]) + [SeedMessage(fold)];
  }

  // ---- what a caller gets -----------------------------------------------------------

  /** Folding what ends later and later: the old conversation with one slice replaced by its summary. */
  lemma {:induction false} FoldCommutes(view: seq<Event>, asking: RunId, keep: int, fold: Fold, e: Event)
    requires Sorted(view) && Ranged(Standing(view)) && Records(view, asking, keep, fold, e)
    requires Increasing(Group(Verbatim(view, asking)))
    ensures Commutes(view, asking, keep, fold, e)
  {
    hide Group, PlanCompaction, Verbatim, Standing, Through, Rebuild, Ranged, Increasing, CutIsALogPosition;
    FoldCommutesIff(view, asking, keep, fold, e);
    IncreasingCutsTheLog(view, asking, keep);
  }

  /** The cut the plan makes is a position in the log. */
  ghost predicate CutsTheLog(view: seq<Event>, asking: RunId, keep: int)
    requires PlanCompaction(Rebuild(view, asking), Through(view), keep).Some?
  {
    var plan := PlanCompaction(Rebuild(view, asking), Through(view), keep).value;
    |Standing(view)| <= plan.cut && CutIsALogPosition(view, asking, plan)
  }

  /** How much of the window `keep` tokens of verbatim tail are. */
  function Keep(given: Budget, overhead: int): int {
    var budget := WithDefaults(given);
    Share(budget.window, budget.keepFraction) - overhead
  }

  lemma {:induction false} RecordedBy(view: seq<Event>, asking: RunId, overhead: int, given: Budget,
      summary: Option<string>, e: Event)
    requires CompactionOf(view, asking, overhead, given, summary).Some?
    requires e.payload == ConversationCompacted(CompactionOf(view, asking, overhead, given, summary).value)
    ensures Records(view, asking, Keep(given, overhead), e.payload.fold, e)
    ensures var ms := Rebuild(view, asking);
            var plan := PlanCompaction(ms, Through(view), Keep(given, overhead)).value;
            && plan.start <= plan.cut <= |ms| && summary.Some?
            && e.payload.fold == FoldOf(ms, plan, summary.value, overhead)
  {
    hide PlanCompaction, Rebuild, Through, FoldOf;
    var ms := Rebuild(view, asking);
    PlanInside(ms, Through(view), Keep(given, overhead));
    PlanOf(ms, PlanCompaction(ms, Through(view), Keep(given, overhead)).value, summary.value, overhead);
  }

  lemma {:induction false} PlanOf(ms: seq<Bounded>, plan: Plan, summary: string, overhead: int)
    requires plan.start <= plan.cut <= |ms|
    ensures FoldOf(ms, plan, summary, overhead).from == plan.from
    ensures FoldOf(ms, plan, summary, overhead).through == plan.through
  {
  }

  lemma {:induction false} SummarySize(fold: Fold)
    ensures EstimateMessage(SeedMessage(fold).message) == SummaryEstimate(fold.summary)
  {
    var content := SeedMessage(fold).message.content;
    assert content[..0] == [];
    assert EstimateBlocks(content) == EstimateBlocks([]) + EstimateBlock(content[0]);
  }

  /** The size recorded with a fold is the size of the conversation as it is then rebuilt. */
  lemma {:induction false} SizeOfFolded(ms: seq<Bounded>, plan: Plan, summary: string, overhead: int)
    requires plan.start <= plan.cut <= |ms|
    ensures var fold := FoldOf(ms, plan, summary, overhead);
            fold.after == overhead + EstimateAll(ms[..plan.start] + [SeedMessage(fold)] + ms[plan.cut..])
  {
    hide EstimateMessage, EstimateText;
    var fold := FoldOf(ms, plan, summary, overhead);
    var seed := [SeedMessage(fold)];
    SummarySize(fold);
    assert seed[..0] == [];
    assert EstimateAll(seed) == EstimateAll([]) + EstimateMessage(seed[0].message);
    EstimateConcat(ms[..plan.start], seed);
    EstimateConcat(ms[..plan.start] + seed, ms[plan.cut..]);
  }

  /** `now` is `ms` with one slice replaced by the summary of `fold`, and the recorded sizes are theirs. */
  ghost predicate Condensed(ms: seq<Bounded>, now: seq<Bounded>, alreadyFolded: Seq, keep: int, overhead: int,
      fold: Fold)
    requires PlanCompaction(ms, alreadyFolded, keep).Some?
  {
    var plan := PlanCompaction(ms, alreadyFolded, keep).value;
    && plan.start < plan.cut < |ms| && fold.folded == plan.cut - plan.start
    && now == ms[..plan.start] + [SeedMessage(fold)] + ms[plan.cut..]
    && fold.before == overhead + EstimateAll(ms)
    && fold.after == overhead + EstimateAll(now)
  }

  /** The record leaves the conversation with one slice replaced, and says its sizes before and after, exactly when
      the cut is a position in the log. */
  lemma {:induction false} CompactedViewIff(view: seq<Event>, asking: RunId, overhead: int, given: Budget,
                                            summary: Option<string>, fold: Fold, e: Event)
    requires Sorted(view) && Ranged(Standing(view))
    requires CompactionOf(view, asking, overhead, given, summary) == Some(fold)
    requires e.payload == ConversationCompacted(fold)
    ensures var keep := Keep(given, overhead);
            && PlanCompaction(Rebuild(view, asking), Through(view), keep).Some?
            && (CutsTheLog(view, asking, keep) <==>
                Condensed(Rebuild(view, asking), Rebuild(view + [e], asking), Through(view), keep, overhead, fold))
  {
    hide Group, PlanCompaction, Verbatim, Standing, Through, Rebuild, Ranged, CompactionOf, EstimateAll, Keep,
        CutIsALogPosition;
    var ms, keep := Rebuild(view, asking), Keep(given, overhead);
    RecordedBy(view, asking, overhead, given, summary, e);
    FoldCommutesIff(view, asking, keep, fold, e);
    PlanInside(ms, Through(view), keep);
    SizeOfFolded(ms, PlanCompaction(ms, Through(view), keep).value, summary.value, overhead);
  }

  lemma {:induction false} IncreasingCutsTheLog(view: seq<Event>, asking: RunId, keep: int)
    requires Sorted(view) && PlanCompaction(Rebuild(view, asking), Through(view), keep).Some?
    requires Increasing(Group(Verbatim(view, asking)))
    ensures CutsTheLog(view, asking, keep)
  {
    hide Group, PlanCompaction, Verbatim, Cut, Head, Standing, Through, Separates, Rebuild, Increasing;
    var ms := Rebuild(view, asking);
    var plan := PlanCompaction(ms, Through(view), keep).value;
    PlanInside(ms, Through(view), keep);
    HeadIsTheFolds(view, asking);
    VerbatimOrdered(view, asking);
    GroupedPart(view, asking, plan.cut);
    IncreasingSeparates(Verbatim(view, asking), plan.cut - |Standing(view)|);
  }

  lemma {:induction false} CompactedView(view: seq<Event>, asking: RunId, overhead: int, given: Budget,
                                         summary: Option<string>, fold: Fold, e: Event)
    requires Sorted(view) && Ranged(Standing(view)) && Increasing(Group(Verbatim(view, asking)))
    requires CompactionOf(view, asking, overhead, given, summary) == Some(fold)
    requires e.payload == ConversationCompacted(fold)
    ensures var keep := Keep(given, overhead);
            && PlanCompaction(Rebuild(view, asking), Through(view), keep).Some?
            && Condensed(Rebuild(view, asking), Rebuild(view + [e], asking), Through(view), keep, overhead, fold)
  {
    hide Group, PlanCompaction, Verbatim, Standing, Through, Rebuild, Ranged, Increasing, CompactionOf, Condensed,
        Keep, CutsTheLog;
    CompactedViewIff(view, asking, overhead, given, summary, fold, e);
    IncreasingCutsTheLog(view, asking, Keep(given, overhead));
  }

  /** After a compaction of an orderly conversation the run is shown the kept folds, the new one and
      the untouched tail, and the recorded sizes are those of the conversation before and after. */
  lemma {:induction false} CompactedConversation(log: seq<Event>, run: Run, delegated: set<RunId>, overhead: int,
                                                 given: Budget, summary: Option<string>, fold: Fold)
    requires Sorted(log) && Known(run, delegated)
    requires Ranged(Standing(Visible(log, run, delegated)))
    requires Increasing(Group(Verbatim(Visible(log, run, delegated), run.id)))
    requires CompactionOf(Visible(log, run, delegated), run.id, overhead, given, summary) == Some(fold)
    ensures var view, after := Visible(log, run, delegated), Visible(log + [RecordOf(log, run, fold)], run, delegated);
            var keep := Keep(given, overhead);
            && PlanCompaction(Rebuild(view, run.id), Through(view), keep).Some?
            && Condensed(Rebuild(view, run.id), Rebuild(after, run.id), Through(view), keep, overhead, fold)
  {
    hide Group, PlanCompaction, Verbatim, Standing, Through, Rebuild, Ranged, Visible, Increasing, CompactionOf,
        Condensed, Keep;
    var view := Visible(log, run, delegated);
    var e := RecordOf(log, run, fold);
    VisibleMore(log, e, run, delegated);
    VisibleSorted(log, run, delegated);
    CompactedView(view, run.id, overhead, given, summary, fold, e);
  }
}
