/** Whole histories of a session: what its runs say and do, the compactions in between, and the pruning.

    A compaction is planned from the log as it was when the run measured it and recorded later: the summary
    takes a model call. Anything may happen in the meantime. A run that is resumed after it waited for a person
    works beside whichever run its conversation has gone on to, so another run may compact it as well.
  */
module History {
  import opened Wrappers
  import opened Domain
  import opened Grouping
  import opened Placement
  import opened Folds
  import opened Estimate
  import opened Compaction
  import opened Tiling
  import opened Meanwhile
  import opened Retention

  type Doing = p: Payload | !p.ConversationCompacted? witness Other

  /** `measured` is how many steps had been taken when the run measured its conversation. */
  datatype Step =
    | Happens(run: RunId, what: Doing)
    | Compacts(run: RunId, measured: nat, overhead: int, given: Budget, summary: string)
    | Prunes(keepAfterFold: nat)

  function RunOf(id: RunId, workers: set<RunId>): Run {
    Run(id, id in workers)
  }

  function ViewOf(log: seq<Event>, id: RunId, workers: set<RunId>): seq<Event> {
    Visible(log, RunOf(id, workers), workers)
  }

  /** The fold a compaction comes to. */
  function FoldFor(steps: seq<Step>, workers: set<RunId>, step: Step): Option<Fold>
    requires step.Compacts?
    decreases |steps|, 1
  {
    if step.measured > |steps| then None
    else
      var was := ViewOf(Log(steps[..step.measured], workers), step.run, workers);
      CompactionOf(was, step.run, step.overhead, step.given, Some(step.summary))
  }

  /** The log after some steps. */
  function Log(steps: seq<Step>, workers: set<RunId>): seq<Event>
    decreases |steps|, 0
  {
    if steps == [] then []
    else
      var init, step := steps[..|steps| - 1], steps[|steps| - 1];
      var log := Log(init, workers);
      match step
      case Happens(run, what) => log + [Event(NextSeq(log), run, what)]
      case Prunes(keepAfterFold) => Pruned(log, CutFor(log, keepAfterFold))
      case Compacts(run, _, _, _, _) =>
        var fold := FoldFor(init, workers, step);
        if fold.None? then log else log + [RecordOf(log, RunOf(run, workers), fold.value)]
  }

  /** Whose conversation a run reads: a worker's own, or the one everybody else shares. */
  predicate SameConversation(a: RunId, b: RunId, workers: set<RunId>) {
    if a in workers then a == b else b !in workers
  }

  // ---- every history ------------------------------------------------------------------

  lemma {:induction false} LogMore(steps: seq<Step>, workers: set<RunId>, step: Step)
    ensures var log := Log(steps, workers);
            Log(steps + [step], workers) ==
            match step
            case Happens(run, what) => log + [Event(NextSeq(log), run, what)]
            case Prunes(keepAfterFold) => Pruned(log, CutFor(log, keepAfterFold))
            case Compacts(run, _, _, _, _) =>
              var fold := FoldFor(steps, workers, step);
              if fold.None? then log else log + [RecordOf(log, RunOf(run, workers), fold.value)]
  {
    assert (steps + [step])[..|steps|] == steps;
  }

  lemma {:induction false} PrunedSorted(log: seq<Event>, cut: Seq)
    requires Sorted(log)
    ensures Sorted(Pruned(log, cut))
    ensures log != [] ==> UpTo(Pruned(log, cut), log[|log| - 1].seqNo)
  {
    if log != [] {
      var init, e := log[..|log| - 1], log[|log| - 1];
      SortedPrefix(log, |log| - 1);
      PrunedSorted(init, cut);
      assert UpTo(Pruned(init, cut), e.seqNo - 1);
      if cut < e.seqNo || e.payload.ConversationCompacted? {
        SortedMore(Pruned(init, cut), e);
      }
    }
  }

  /** Pruning never takes the last event, so no number is given out twice. */
  lemma {:induction false} NextNumberStays(log: seq<Event>, keepAfterFold: nat)
    requires Sorted(log)
    ensures NextSeq(Pruned(log, CutFor(log, keepAfterFold))) == NextSeq(log)
  {
    hide LastFold;
    if log != [] {
      var init, e := log[..|log| - 1], log[|log| - 1];
      assert CutFor(log, keepAfterFold) < e.seqNo;
      var kept := Pruned(init, CutFor(log, keepAfterFold));
      assert Pruned(log, CutFor(log, keepAfterFold)) == kept + [e];
    }
  }

  lemma {:induction false} AppendedSorted(log: seq<Event>, e: Event)
    requires Sorted(log) && e.seqNo == NextSeq(log)
    ensures Sorted(log + [e])
  {
    SortedMore(log, e);
  }

  lemma {:induction false} LogSorted(steps: seq<Step>, workers: set<RunId>)
    ensures Sorted(Log(steps, workers))
  {
    hide FoldFor, Sorted, Pruned, CutFor, NextSeq;
    if steps == [] {
      NothingSorted();
    } else {
      var init, step := steps[..|steps| - 1], steps[|steps| - 1];
      var log := Log(init, workers);
      LogSorted(init, workers);
      match step
      case Happens(run, what) => AppendedSorted(log, Event(NextSeq(log), run, what));
      case Prunes(keepAfterFold) => PrunedSorted(log, CutFor(log, keepAfterFold));
      case Compacts(run, _, _, _, _) =>
        if FoldFor(init, workers, step).Some? {
          AppendedSorted(log, RecordOf(log, RunOf(run, workers), FoldFor(init, workers, step).value));
        }
    }
  }

  lemma {:induction false} NothingSorted()
    ensures Sorted([])
  {
  }

  lemma {:induction false} ConversationShared(log: seq<Event>, a: RunId, b: RunId, workers: set<RunId>)
    requires SameConversation(a, b, workers)
    ensures ViewOf(log, a, workers) == ViewOf(log, b, workers)
  {
    if log != [] {
      ConversationShared(log[..|log| - 1], a, b, workers);
    }
  }

  /** What a run appends is in every view of its own conversation and in no other. */
  lemma {:induction false} ViewMore(log: seq<Event>, e: Event, viewer: RunId, workers: set<RunId>)
    ensures ViewOf(log + [e], viewer, workers)
         == if SameConversation(viewer, e.run, workers) then ViewOf(log, viewer, workers) + [e]
             else ViewOf(log, viewer, workers)
  {
    VisibleMore(log, e, RunOf(viewer, workers), workers);
    NothingAdded(ViewOf(log, viewer, workers));
  }

  lemma {:induction false} StandingStays(view: seq<Event>, e: Event)
    requires !e.payload.ConversationCompacted?
    ensures Standing(view + [e]) == Standing(view)
  {
    assert (view + [e])[..|view|] == view;
  }

  // ---- what one step does to the folds -----------------------------------------------------

  /** The step records a fold in the viewer's conversation. */
  predicate Folding(steps: seq<Step>, workers: set<RunId>, step: Step, viewer: RunId) {
    step.Compacts? && SameConversation(viewer, step.run, workers) && FoldFor(steps, workers, step).Some?
  }

  function FoldsOf(steps: seq<Step>, workers: set<RunId>, viewer: RunId): seq<Fold> {
    Standing(ViewOf(Log(steps, workers), viewer, workers))
  }

  function ReachOf(steps: seq<Step>, workers: set<RunId>, viewer: RunId): Seq {
    Through(ViewOf(Log(steps, workers), viewer, workers))
  }

  lemma {:induction false} ReachIs(steps: seq<Step>, workers: set<RunId>, viewer: RunId)
    ensures ReachOf(steps, workers, viewer) == Reach(FoldsOf(steps, workers, viewer))
  {
    hide Standing, Visible, Log;
  }

  /** A recorded fold unseats the folds of its conversation that do not begin before it, and they then reach as far as
      it does, whatever was recorded since it was planned. No other step moves any fold. */
  lemma {:induction false} FoldsAfter(steps: seq<Step>, workers: set<RunId>, step: Step, viewer: RunId)
    ensures var was, now := FoldsOf(steps, workers, viewer), FoldsOf(steps + [step], workers, viewer);
            if Folding(steps, workers, step, viewer) then
              var fold := FoldFor(steps, workers, step).value;
              now == StartingBefore(was, fold.from) + [fold] && ReachOf(steps + [step], workers, viewer) == fold.through
            else now == was && ReachOf(steps + [step], workers, viewer) == ReachOf(steps, workers, viewer)
  {
    hide Standing, Visible, FoldFor, Log, Pruned, CutFor, Through;
    var log := Log(steps, workers);
    var view := ViewOf(log, viewer, workers);
    ReachIs(steps, workers, viewer);
    ReachIs(steps + [step], workers, viewer);
    LogMore(steps, workers, step);
    match step
    case Happens(run, what) =>
      ViewMore(log, Event(NextSeq(log), run, what), viewer, workers);
      StandingStays(view, Event(NextSeq(log), run, what));
    case Prunes(keepAfterFold) =>
      PrunedView(log, CutFor(log, keepAfterFold), RunOf(viewer, workers), workers);
      PrunedFolds(view, CutFor(log, keepAfterFold));
    case Compacts(run, _, _, _, _) =>
      if FoldFor(steps, workers, step).Some? {
        var e := RecordOf(log, RunOf(run, workers), FoldFor(steps, workers, step).value);
        ViewMore(log, e, viewer, workers);
        Compaction.StandingMore(view, e);
      }
  }

  /** What a fold was planned from: it begins where the folds then ended, or where the first of them began, and
      ends past them. */
  lemma {:induction false} PlannedFold(steps: seq<Step>, workers: set<RunId>, step: Step)
    requires step.Compacts? && FoldFor(steps, workers, step).Some?
    ensures step.measured <= |steps|
    ensures var folds := FoldsOf(steps[..step.measured], workers, step.run);
            var fold := FoldFor(steps, workers, step).value;
            && Reach(folds) < fold.through
            && (if |folds| >= 6 then fold.from == folds[0].from else fold.from == Reach(folds) + 1)
  {
    hide Standing, Visible, Through, Log, CompactionOf, PlanCompaction, Verbatim, Group, Rebuild;
    var was := ViewOf(Log(steps[..step.measured], workers), step.run, workers);
    var fold, keep := FoldFor(steps, workers, step).value, Keep(step.given, step.overhead);
    ReachIs(steps[..step.measured], workers, step.run);
    RecordedBy(was, step.run, step.overhead, step.given, Some(step.summary),
        Event(0, step.run, ConversationCompacted(fold)));
    PlanInside(Rebuild(was, step.run), Through(was), keep);
    PlanRange(was, step.run, keep);
  }

  /** A plan either goes on where the folds end or takes all of them in. */
  lemma {:induction false} PlanRange(view: seq<Event>, asking: RunId, keep: int)
    requires PlanCompaction(Rebuild(view, asking), Through(view), keep).Some?
    ensures var plan := PlanCompaction(Rebuild(view, asking), Through(view), keep).value;
            var folds := Standing(view);
            if |folds| >= 6 then plan.start == 0 && plan.from == folds[0].from
            else plan.start == |folds| && plan.from == Reach(folds) + 1
  {
    hide Cut, Head, Verbatim, Group, Standing;
    HeadIsTheFolds(view, asking);
    if |Standing(view)| >= MAX_FOLDS_IN_HEAD {
      assert Rebuild(view, asking)[0] == SeedMessage(Standing(view)[0]);
    }
  }

  lemma {:induction false} FirstIsLow(folds: seq<Fold>)
    requires Sound(folds) && StrictStarts(folds) && folds != []
    ensures 1 <= folds[0].from <= Reach(folds)
  {
    assert folds[0] in folds && folds[|folds| - 1] in folds;
  }

  lemma {:induction false} SoundMore(folds: seq<Fold>, fold: Fold)
    requires Sound(folds) && 1 <= fold.from <= fold.through
    ensures Sound(StartingBefore(folds, fold.from) + [fold])
  {
    forall f | f in StartingBefore(folds, fold.from) ensures f in folds {
      StartingBeforeIff(folds, fold.from, f);
    }
  }

  /** After any history every standing fold covers something, and they fall in the order they begin. */
  lemma {:induction false} FoldsAreSound(steps: seq<Step>, workers: set<RunId>, viewer: RunId)
    ensures Sound(FoldsOf(steps, workers, viewer)) && StrictStarts(FoldsOf(steps, workers, viewer))
    decreases |steps|, 0
  {
    hide Standing, Visible, FoldFor, Log, Sound, StrictStarts, StartingBefore;
    StandingStartsIncrease(ViewOf(Log(steps, workers), viewer, workers));
    if steps == [] {
      NoFoldsYet(workers, viewer);
    } else {
      var init, step := steps[..|steps| - 1], steps[|steps| - 1];
      assert steps == init + [step];
      FoldsAreSound(init, workers, viewer);
      FoldsAfter(init, workers, step, viewer);
      if Folding(init, workers, step, viewer) {
        FoldIsSound(init, workers, step);
        SoundMore(FoldsOf(init, workers, viewer), FoldFor(init, workers, step).value);
      }
    }
  }

  lemma {:induction false} FoldIsSound(steps: seq<Step>, workers: set<RunId>, step: Step)
    requires step.Compacts? && FoldFor(steps, workers, step).Some?
    ensures 1 <= FoldFor(steps, workers, step).value.from <= FoldFor(steps, workers, step).value.through
    decreases |steps|, 1
  {
    hide Standing, Visible, FoldFor, Log, Sound, StrictStarts;
    PlannedFold(steps, workers, step);
    FoldsAreSound(steps[..step.measured], workers, step.run);
    var folds := FoldsOf(steps[..step.measured], workers, step.run);
    if |folds| >= MAX_FOLDS_IN_HEAD {
      FirstIsLow(folds);
    }
  }

  lemma {:induction false} NoFoldsYet(workers: set<RunId>, viewer: RunId)
    ensures FoldsOf([], workers, viewer) == [] && ReachOf([], workers, viewer) == 0
    ensures Sound([]) && StrictStarts([]) && WellFolded([])
  {
  }

  // ---- when the folds go on covering the log -------------------------------------------------

  ghost predicate AlwaysTiled(steps: seq<Step>, workers: set<RunId>, viewer: RunId) {
    forall n: nat :: n <= |steps| ==> WellFolded(FoldsOf(steps[..n], workers, viewer))
  }

  /** Each fold, when it is recorded, goes on from the folds that then stand. */
  ghost predicate AlwaysContinues(steps: seq<Step>, workers: set<RunId>, viewer: RunId) {
    forall k: nat :: k < |steps| && Folding(steps[..k], workers, steps[k], viewer) ==>
                       Continues(FoldsOf(steps[..k], workers, viewer), FoldFor(steps[..k], workers, steps[k]).value)
  }

  lemma {:induction false} TiledMore(init: seq<Step>, step: Step, workers: set<RunId>, viewer: RunId)
    ensures AlwaysTiled(init + [step], workers, viewer)
       <==> AlwaysTiled(init, workers, viewer) && WellFolded(FoldsOf(init + [step], workers, viewer))
  {
    hide FoldsOf, WellFolded;
    var steps := init + [step];
    assert forall n: nat :: n <= |init| ==> steps[..n] == init[..n];
    assert steps[..|steps|] == steps;
    if AlwaysTiled(steps, workers, viewer) {
      assert WellFolded(FoldsOf(steps[..|steps|], workers, viewer));
      forall n: nat | n <= |init| ensures WellFolded(FoldsOf(init[..n], workers, viewer)) {
        assert WellFolded(FoldsOf(steps[..n], workers, viewer));
      }
    }
  }

  lemma {:induction false} ContinuesMore(init: seq<Step>, step: Step, workers: set<RunId>, viewer: RunId)
    ensures AlwaysContinues(init + [step], workers, viewer)
       <==> AlwaysContinues(init, workers, viewer) &&
            (Folding(init, workers, step, viewer) ==>
               Continues(FoldsOf(init, workers, viewer), FoldFor(init, workers, step).value))
  {
    hide FoldsOf, Continues, FoldFor;
    var steps := init + [step];
    assert forall n: nat :: n <= |init| ==> steps[..n] == init[..n];
    assert steps[|init|] == step && init[..|init|] == init;
    if AlwaysContinues(steps, workers, viewer) {
      forall k: nat | k < |init| && Folding(init[..k], workers, init[k], viewer)
        ensures Continues(FoldsOf(init[..k], workers, viewer), FoldFor(init[..k], workers, init[k]).value)
      {
        assert steps[..k] == init[..k] && steps[k] == init[k];
      }
    }
  }

  /** The folds of a conversation cover its log end to end after every step of a history, with never more than six of
      them, exactly when each of them, as it is recorded, goes on from the folds that then stand. */
  lemma {:induction false} FoldsTileIff(steps: seq<Step>, workers: set<RunId>, viewer: RunId)
    ensures AlwaysTiled(steps, workers, viewer) <==> AlwaysContinues(steps, workers, viewer)
  {
    hide FoldsOf, FoldFor, WellFolded, Continues, AlwaysTiled, AlwaysContinues, StartingBefore;
    if steps == [] {
      NothingTiles(workers, viewer);
    } else {
      var init, step := steps[..|steps| - 1], steps[|steps| - 1];
      assert steps == init + [step];
      FoldsTileIff(init, workers, viewer);
      TiledMore(init, step, workers, viewer);
      ContinuesMore(init, step, workers, viewer);
      FoldsAfter(init, workers, step, viewer);
      if AlwaysTiled(init, workers, viewer) {
        TiledNow(init, workers, viewer);
        if Folding(init, workers, step, viewer) {
          FoldIsSound(init, workers, step);
          TilesMoreIff(FoldsOf(init, workers, viewer), FoldFor(init, workers, step).value);
        }
      }
    }
  }

  lemma {:induction false} NothingTiles(workers: set<RunId>, viewer: RunId)
    ensures AlwaysTiled([], workers, viewer) && AlwaysContinues([], workers, viewer)
  {
    NoFoldsYet(workers, viewer);
  }

  lemma {:induction false} TiledNow(steps: seq<Step>, workers: set<RunId>, viewer: RunId)
    requires AlwaysTiled(steps, workers, viewer)
    ensures WellFolded(FoldsOf(steps, workers, viewer))
  {
    hide FoldsOf, WellFolded;
    assert steps[..|steps|] == steps;
  }

  // ---- when the folds go on reaching further --------------------------------------------------

  /** Each fold recorded from step `from` on reaches at least as far as `at`. */
  ghost predicate ReachAtLeast(steps: seq<Step>, from: nat, workers: set<RunId>, viewer: RunId, at: Seq) {
    forall k: nat :: from <= k < |steps| && Folding(steps[..k], workers, steps[k], viewer) ==>
                       at <= FoldFor(steps[..k], workers, steps[k]).value.through
  }

  ghost predicate StaysReached(steps: seq<Step>, from: nat, workers: set<RunId>, viewer: RunId, at: Seq) {
    forall n: nat :: from <= n <= |steps| ==> at <= ReachOf(steps[..n], workers, viewer)
  }

  /** What the folds have reached stays reached exactly when no fold recorded from then on ends before it. */
  lemma {:induction false} StaysReachedIff(steps: seq<Step>, from: nat, workers: set<RunId>, viewer: RunId, at: Seq)
    requires from <= |steps| && at <= ReachOf(steps[..from], workers, viewer)
    ensures StaysReached(steps, from, workers, viewer, at) <==> ReachAtLeast(steps, from, workers, viewer, at)
  {
    hide FoldsOf, ReachOf, FoldFor, StartingBefore;
    forall k: nat | from <= k < |steps|
      ensures if Folding(steps[..k], workers, steps[k], viewer)
              then ReachOf(steps[..k + 1], workers, viewer) == FoldFor(steps[..k], workers, steps[k]).value.through
              else ReachOf(steps[..k + 1], workers, viewer) == ReachOf(steps[..k], workers, viewer)
    {
      assert steps[..k + 1] == steps[..k] + [steps[k]];
      FoldsAfter(steps[..k], workers, steps[k], viewer);
    }
    if ReachAtLeast(steps, from, workers, viewer, at) {
      forall n: nat | from <= n <= |steps| ensures at <= ReachOf(steps[..n], workers, viewer) {
        StaysUpTo(steps, from, n, workers, viewer, at);
      }
    }
    if StaysReached(steps, from, workers, viewer, at) {
      forall k: nat | from <= k < |steps| && Folding(steps[..k], workers, steps[k], viewer)
        ensures at <= FoldFor(steps[..k], workers, steps[k]).value.through
      {
        assert at <= ReachOf(steps[..k + 1], workers, viewer);
      }
    }
  }

  lemma {:induction false} StaysUpTo(steps: seq<Step>, from: nat, n: nat, workers: set<RunId>, viewer: RunId, at: Seq)
    requires from <= n <= |steps| && at <= ReachOf(steps[..from], workers, viewer)
    requires ReachAtLeast(steps, from, workers, viewer, at)
    ensures at <= ReachOf(steps[..n], workers, viewer)
  {
    hide FoldsOf, ReachOf, FoldFor, StartingBefore;
    if from < n {
      StaysUpTo(steps, from, n - 1, workers, viewer, at);
      assert steps[..n] == steps[..n - 1] + [steps[n - 1]];
      FoldsAfter(steps[..n - 1], workers, steps[n - 1], viewer);
    }
  }

  /** The folds of a conversation never reach less far than before. */
  ghost predicate NeverFallsBack(steps: seq<Step>, workers: set<RunId>, viewer: RunId) {
    forall k: nat :: k < |steps| ==> ReachOf(steps[..k], workers, viewer) <= ReachOf(steps[..k + 1], workers, viewer)
  }

  /** Each fold, when it is recorded, reaches at least as far as those that then stand. */
  ghost predicate EachReaches(steps: seq<Step>, workers: set<RunId>, viewer: RunId) {
    forall k: nat :: k < |steps| && Folding(steps[..k], workers, steps[k], viewer) ==>
                       ReachOf(steps[..k], workers, viewer) <= FoldFor(steps[..k], workers, steps[k]).value.through
  }

  lemma {:induction false} NeverFallsBackIff(steps: seq<Step>, workers: set<RunId>, viewer: RunId)
    ensures NeverFallsBack(steps, workers, viewer) <==> EachReaches(steps, workers, viewer)
  {
    hide FoldsOf, ReachOf, FoldFor, StartingBefore;
    forall k: nat | k < |steps|
      ensures ReachOf(steps[..k], workers, viewer) <= ReachOf(steps[..k + 1], workers, viewer)
         <==> (Folding(steps[..k], workers, steps[k], viewer) ==>
                 ReachOf(steps[..k], workers, viewer) <= FoldFor(steps[..k], workers, steps[k]).value.through)
    {
      assert steps[..k + 1] == steps[..k] + [steps[k]];
      FoldsAfter(steps[..k], workers, steps[k], viewer);
    }
    if NeverFallsBack(steps, workers, viewer) {
      forall k: nat | k < |steps| && Folding(steps[..k], workers, steps[k], viewer)
        ensures ReachOf(steps[..k], workers, viewer) <= FoldFor(steps[..k], workers, steps[k]).value.through
      {
        assert ReachOf(steps[..k], workers, viewer) <= ReachOf(steps[..k + 1], workers, viewer);
      }
    }
  }

  // ---- when the folds a compaction was planned for still stand ---------------------------------

  /** Nobody else compacted the conversation between the measuring and the recording of any compaction of it. This is
      so when one run at a time is at work in it; a run resumed beside another need not keep it. */
  ghost predicate Alone(steps: seq<Step>, workers: set<RunId>) {
    forall j, k :: 0 <= j < k < |steps| && CompactTheSame(steps[j], steps[k], workers) ==> j < steps[k].measured
  }

  predicate CompactTheSame(a: Step, b: Step, workers: set<RunId>) {
    a.Compacts? && b.Compacts? && SameConversation(b.run, a.run, workers)
  }

  lemma {:induction false} FoldsWait(steps: seq<Step>, from: nat, workers: set<RunId>, viewer: RunId)
    requires from <= |steps|
    requires forall k :: from <= k < |steps| && steps[k].Compacts? ==> !SameConversation(viewer, steps[k].run, workers)
    ensures FoldsOf(steps[..from], workers, viewer) == FoldsOf(steps, workers, viewer)
    decreases |steps|
  {
    hide FoldsOf, ReachOf, FoldFor, StartingBefore;
    if from == |steps| {
      assert steps[..from] == steps;
    } else {
      var init, step := steps[..|steps| - 1], steps[|steps| - 1];
      assert steps == init + [step] && init[..from] == steps[..from];
      assert forall k :: from <= k < |init| ==> init[k] == steps[k];
      FoldsWait(init, from, workers, viewer);
      FoldsAfter(init, workers, step, viewer);
    }
  }

  /** A plan made for the folds that stand goes on from them and reaches further. */
  lemma {:induction false} FreshContinues(folds: seq<Fold>, fold: Fold)
    requires Sound(folds) && StrictStarts(folds) && |folds| <= MAX_FOLDS_IN_HEAD && Reach(folds) < fold.through
    requires if |folds| >= MAX_FOLDS_IN_HEAD then fold.from == folds[0].from == 1 else fold.from == Reach(folds) + 1
    ensures Continues(folds, fold)
  {
    if |folds| < MAX_FOLDS_IN_HEAD {
      StartsAfterTheLast(folds, fold.from);
    } else {
      StartsAtTheFirst(folds, fold.from);
    }
  }

  lemma {:induction false} AlonePrefix(steps: seq<Step>, workers: set<RunId>, n: nat)
    requires Alone(steps, workers) && n <= |steps|
    ensures Alone(steps[..n], workers)
  {
  }

  /** So as long as one run at a time compacts a conversation, its folds cover its log end to end and only move
      forward. */
  lemma {:induction false} FoldsTile(steps: seq<Step>, workers: set<RunId>, viewer: RunId)
    requires Alone(steps, workers)
    ensures AlwaysContinues(steps, workers, viewer) && WellFolded(FoldsOf(steps, workers, viewer))
    ensures forall k: nat :: k < |steps| && Folding(steps[..k], workers, steps[k], viewer) ==>
                               ReachOf(steps[..k], workers, viewer) < FoldFor(steps[..k], workers,
                                   steps[k]).value.through
    decreases |steps|
  {
    hide FoldsOf, ReachOf, FoldFor, WellFolded, Continues, AlwaysContinues;
    if steps == [] {
      NothingTiles(workers, viewer);
    } else {
      var init, step := steps[..|steps| - 1], steps[|steps| - 1];
      assert steps == init + [step];
      AlonePrefix(steps, workers, |steps| - 1);
      FoldsTile(init, workers, viewer);
      if Folding(init, workers, step, viewer) {
        AloneContinues(init, workers, step, viewer);
      }
      ContinuesMore(init, step, workers, viewer);
      forall k: nat | k < |steps| && Folding(steps[..k], workers, steps[k], viewer)
        ensures ReachOf(steps[..k], workers, viewer) < FoldFor(steps[..k], workers, steps[k]).value.through
      {
        if k < |init| {
          assert steps[..k] == init[..k] && steps[k] == init[k];
        } else {
          assert steps[..k] == init;
        }
      }
    }
    FoldsTileIff(steps, workers, viewer);
    TiledNow(steps, workers, viewer);
  }

  lemma {:induction false} AloneContinues(steps: seq<Step>, workers: set<RunId>, step: Step, viewer: RunId)
    requires Alone(steps + [step], workers) && Folding(steps, workers, step, viewer)
    requires WellFolded(FoldsOf(steps, workers, viewer))
    ensures Continues(FoldsOf(steps, workers, viewer), FoldFor(steps, workers, step).value)
    ensures ReachOf(steps, workers, viewer) < FoldFor(steps, workers, step).value.through
  {
    hide FoldsOf, ReachOf, FoldFor, Continues;
    PlannedFold(steps, workers, step);
    forall k | step.measured <= k < |steps| && steps[k].Compacts?
        ensures !SameConversation(step.run, steps[k].run, workers) {
      assert (steps + [step])[k] == steps[k] && (steps + [step])[|steps|] == step;
    }
    FoldsWait(steps, step.measured, workers, step.run);
    SharedFolds(steps, workers, viewer, step.run);
    ReachIs(steps, workers, viewer);
    TilesAreSound(FoldsOf(steps, workers, viewer));
    FreshContinues(FoldsOf(steps, workers, viewer), FoldFor(steps, workers, step).value);
  }

  lemma {:induction false} SharedFolds(steps: seq<Step>, workers: set<RunId>, a: RunId, b: RunId)
    requires SameConversation(a, b, workers)
    ensures FoldsOf(steps, workers, a) == FoldsOf(steps, workers, b)
              && ReachOf(steps, workers, a) == ReachOf(steps, workers, b)
  {
    hide Standing, Visible, Log;
    ConversationShared(Log(steps, workers), a, b, workers);
  }
}
