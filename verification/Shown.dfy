/** What every history of a session goes on showing, and what it loses. */
module Shown {
  import opened Wrappers
  import opened Domain
  import opened Grouping
  import opened Placement
  import opened Folds
  import opened Estimate
  import opened Compaction
  import opened Tiling
  import opened Meanwhile
  import opened Retention
  import opened History

  // ---- the square, in every history --------------------------------------------------------

  /** While a run at work compacts, others of its conversation may only queue up or be taken back, and a prune may only
      take what the run is not shown. Other conversations go on as they like. */
  ghost predicate Bystanding(steps: seq<Step>, step: Step, workers: set<RunId>, run: RunId) {
    match step
    case Happens(other, what) => SameConversation(run, other, workers) ==> Bystands(Event(0, other, what), run)
    case Compacts(other, _, _, _, _) => !SameConversation(run, other, workers)
    case Prunes(keepAfterFold) =>
      forall x :: x in Verbatim(ViewOf(Log(steps, workers), run, workers), run) ==>
                    CutFor(Log(steps, workers), keepAfterFold) < x.at || Silent(x)
  }

  ghost predicate Undisturbed(steps: seq<Step>, from: nat, workers: set<RunId>, run: RunId) {
    forall k :: from <= k < |steps| ==> Bystanding(steps[..k], steps[k], workers, run)
  }

  lemma {:induction false} BystandsAnyNumber(e: Event, n: Seq, asking: RunId)
    ensures Bystands(e, asking) <==> Bystands(e.(seqNo := n), asking)
  {
  }

  lemma {:induction false} BystanderUnseen(view: seq<Event>, e: Event, run: RunId)
    requires Bystands(e.(seqNo := 0), run)
    ensures Rebuild(view + [e], run) == Rebuild(view, run) && Through(view + [e]) == Through(view)
  {
    hide Rebuild, Through, Bystands;
    BystandsAnyNumber(e, 0, run);
    BystandersUnseen(view, [e], run);
  }

  /** Such a step changes nothing the run is shown. */
  lemma {:induction false} StepUnseen(steps: seq<Step>, step: Step, workers: set<RunId>, run: RunId)
    requires Bystanding(steps, step, workers, run)
    ensures var was, now := ViewOf(Log(steps, workers), run, workers),
              ViewOf(Log(steps + [step], workers), run, workers);
            Rebuild(now, run) == Rebuild(was, run) && Through(now) == Through(was)
  {
    hide Visible, FoldFor, Log, Bystands, Rebuild, Through, Verbatim, Standing, Pruned, CutFor;
    var log := Log(steps, workers);
    LogMore(steps, workers, step);
    match step
    case Happens(other, what) =>
      var e := Event(NextSeq(log), other, what);
      ViewMore(log, e, run, workers);
      if SameConversation(run, other, workers) {
        BystanderUnseen(ViewOf(log, run, workers), e, run);
      }
    case Compacts(other, _, _, _, _) =>
      if FoldFor(steps, workers, step).Some? {
        ViewMore(log, RecordOf(log, RunOf(other, workers), FoldFor(steps, workers, step).value), run, workers);
      }
    case Prunes(keepAfterFold) =>
      PruneInvisibleIff(steps, workers, keepAfterFold, run);
      FoldsAfter(steps, workers, step, run);
  }

  /** So the run is shown what it measured when its fold is recorded. */
  lemma {:induction false} StillShown(steps: seq<Step>, from: nat, workers: set<RunId>, run: RunId)
    requires from <= |steps| && Undisturbed(steps, from, workers, run)
    ensures var was, now := ViewOf(Log(steps[..from], workers), run, workers),
              ViewOf(Log(steps, workers), run, workers);
            Rebuild(now, run) == Rebuild(was, run) && Through(now) == Through(was)
    decreases |steps|
  {
    hide Visible, Log, Bystanding, Rebuild, Through;
    if from == |steps| {
      assert steps[..from] == steps;
    } else {
      var init, step := steps[..|steps| - 1], steps[|steps| - 1];
      assert steps == init + [step] && init[..from] == steps[..from];
      assert forall k :: from <= k < |init| ==> init[k] == steps[k] && init[..k] == steps[..k];
      StillShown(init, from, workers, run);
      StepUnseen(init, step, workers, run);
    }
  }

  lemma {:induction false} SameCompaction(a: seq<Event>, b: seq<Event>, asking: RunId, overhead: int, given: Budget,
      summary: Option<string>)
    requires Rebuild(a, asking) == Rebuild(b, asking) && Through(a) == Through(b)
    ensures CompactionOf(a, asking, overhead, given, summary) == CompactionOf(b, asking, overhead, given, summary)
  {
    hide Rebuild, Through, PlanCompaction, FoldOf, EstimateAll;
  }

  /** In any history, whatever its runs and workers did before and however much of it was pruned, whoever queued up and
      whatever other conversations did while the summary was written: a compaction leaves exactly the conversation with
      one slice replaced by its summary if and only if its cut is a position in the log. */
  lemma {:induction false} CompactionCommutesIff(steps: seq<Step>, workers: set<RunId>, step: Step)
    requires step.Compacts? && FoldFor(steps, workers, step).Some?
               && Undisturbed(steps, step.measured, workers, step.run)
    ensures var now, after := ViewOf(Log(steps, workers), step.run, workers),
              ViewOf(Log(steps + [step], workers), step.run, workers);
            var keep := Keep(step.given, step.overhead);
            && PlanCompaction(Rebuild(now, step.run), Through(now), keep).Some?
            && (CutsTheLog(now, step.run, keep) <==>
                Condensed(Rebuild(now, step.run), Rebuild(after, step.run), Through(now), keep, step.overhead,
                          FoldFor(steps, workers, step).value))
  {
    hide Standing, Visible, Through, CompactionOf, Rebuild, PlanCompaction, Condensed, CutsTheLog, Log, Keep,
        Undisturbed, Sorted;
    var log, run, fold := Log(steps, workers), step.run, FoldFor(steps, workers, step).value;
    var was, now := ViewOf(Log(steps[..step.measured], workers), run, workers), ViewOf(log, run, workers);
    StillShown(steps, step.measured, workers, run);
    SameCompaction(was, now, run, step.overhead, step.given, Some(step.summary));
    FoldsAreSound(steps, workers, run);
    LogSorted(steps, workers);
    VisibleSorted(log, RunOf(run, workers), workers);
    LogMore(steps, workers, step);
    var e := RecordOf(log, RunOf(run, workers), fold);
    ViewMore(log, e, run, workers);
    CompactedViewIff(now, run, step.overhead, step.given, Some(step.summary), fold, e);
  }

  /** So it does whenever the messages of the run that compacts end later and later. */
  lemma {:induction false} CompactionCommutes(steps: seq<Step>, workers: set<RunId>, step: Step)
    requires step.Compacts? && FoldFor(steps, workers, step).Some?
               && Undisturbed(steps, step.measured, workers, step.run)
    requires Increasing(Group(Verbatim(ViewOf(Log(steps, workers), step.run, workers), step.run)))
    ensures var now, after := ViewOf(Log(steps, workers), step.run, workers),
              ViewOf(Log(steps + [step], workers), step.run, workers);
            var keep := Keep(step.given, step.overhead);
            && PlanCompaction(Rebuild(now, step.run), Through(now), keep).Some?
            && Condensed(Rebuild(now, step.run), Rebuild(after, step.run), Through(now), keep, step.overhead,
                         FoldFor(steps, workers, step).value)
  {
    hide Standing, Visible, Sound, Through, CompactionOf, Rebuild, PlanCompaction, Condensed, CutsTheLog, Increasing,
        Group, Verbatim;
    hide Log, Keep, Undisturbed, Sorted, FoldFor;
    CompactionCommutesIff(steps, workers, step);
    LogSorted(steps, workers);
    VisibleSorted(Log(steps, workers), RunOf(step.run, workers), workers);
    IncreasingCutsTheLog(ViewOf(Log(steps, workers), step.run, workers), step.run, Keep(step.given, step.overhead));
  }

  // ---- whatever happened in the meantime ------------------------------------------------------

  /** A recorded fold is one event more in every view of its conversation. */
  lemma {:induction false} RecordAppends(steps: seq<Step>, workers: set<RunId>, step: Step, viewer: RunId)
      returns (e: Event)
    requires Folding(steps, workers, step, viewer)
    ensures var now := ViewOf(Log(steps, workers), viewer, workers);
            ViewOf(Log(steps + [step], workers), viewer, workers) == now + [e] && Sorted(now + [e])
    ensures e.payload == ConversationCompacted(FoldFor(steps, workers, step).value)
  {
    hide Visible, FoldFor, Log, Sorted;
    var log := Log(steps, workers);
    e := RecordOf(log, RunOf(step.run, workers), FoldFor(steps, workers, step).value);
    LogMore(steps, workers, step);
    ViewMore(log, e, viewer, workers);
    LogSorted(steps + [step], workers);
    VisibleSorted(log + [e], RunOf(viewer, workers), workers);
  }

  /** What any run of the conversation is shown once a fold is recorded, whoever else was at work and whatever was
      folded and discarded since the fold was planned: the folds that begin before it, the fold, and what the log
      places past its end. */
  lemma {:induction false} RecordLeaves(steps: seq<Step>, workers: set<RunId>, step: Step, viewer: RunId)
    requires Folding(steps, workers, step, viewer)
    ensures var now, fold := ViewOf(Log(steps, workers), viewer, workers), FoldFor(steps, workers, step).value;
            var after := ViewOf(Log(steps + [step], workers), viewer, workers);
            Rebuild(after, viewer) == Seeds(StartingBefore(Standing(now), fold.from)) + [SeedMessage(fold)]
                                      + Group(ItemsAfter(Placed(Live(now), viewer), fold.through))
  {
    hide Standing, Visible, FoldFor, Log, Rebuild, Live, Placed, ItemsAfter, Group, StartingBefore, Sorted;
    var e := RecordAppends(steps, workers, step, viewer);
    AnyRecordLeaves(ViewOf(Log(steps, workers), viewer, workers), viewer, FoldFor(steps, workers, step).value, e);
  }

  /** And it is the conversation that run was shown with the slice up to a message replaced, exactly when the fold ends
      between that message and the next. */
  lemma {:induction false} AnyCompactionCommutesIff(steps: seq<Step>, workers: set<RunId>, step: Step, viewer: RunId,
      cut: nat)
    requires Folding(steps, workers, step, viewer)
    requires ReachOf(steps, workers, viewer) <= FoldFor(steps, workers, step).value.through
    requires var messages := Group(Verbatim(ViewOf(Log(steps, workers), viewer, workers), viewer));
             0 < cut <= |messages| && FoldFor(steps, workers, step).value.through == messages[cut - 1].lastSeq
    ensures var now, fold := ViewOf(Log(steps, workers), viewer, workers), FoldFor(steps, workers, step).value;
            var after := ViewOf(Log(steps + [step], workers), viewer, workers);
            var ms, n, p := Rebuild(now, viewer), |Standing(now)|, |StartingBefore(Standing(now), fold.from)|;
            && p <= n <= n + cut <= |ms|
            && (Rebuild(after, viewer) == ms[..p] + [SeedMessage(fold)] + ms[n + cut..]
                <==> Separates(Verbatim(now, viewer), cut, fold.through))
  {
    hide Standing, Visible, FoldFor, Log, Rebuild, Verbatim, Group, Separates, StartingBefore, Through, Sorted;
    var now, fold := ViewOf(Log(steps, workers), viewer, workers), FoldFor(steps, workers, step).value;
    var e := RecordAppends(steps, workers, step, viewer);
    AnyFoldCommutesIff(now, viewer, fold, e, cut);
  }

  /** Nothing was folded in the conversation of a run and nothing discarded, but other runs may have been at work in
      it. */
  ghost predicate Unfolded(steps: seq<Step>, from: nat, workers: set<RunId>, run: RunId) {
    forall k :: from <= k < |steps| ==>
      steps[k].Happens? || (steps[k].Compacts? && !SameConversation(run, steps[k].run, workers))
  }

  lemma {:induction false} ViewGrows(steps: seq<Step>, from: nat, workers: set<RunId>, run: RunId)
      returns (mid: seq<Event>)
    requires from <= |steps| && Unfolded(steps, from, workers, run)
    ensures ViewOf(Log(steps, workers), run, workers) == ViewOf(Log(steps[..from], workers), run, workers) + mid
    ensures NoFolds(mid)
    decreases |steps|
  {
    hide Visible, FoldFor, Log;
    if from == |steps| {
      assert steps[..from] == steps;
      mid := [];
    } else {
      var init, step := steps[..|steps| - 1], steps[|steps| - 1];
      assert steps == init + [step] && init[..from] == steps[..from];
      assert forall k :: from <= k < |init| ==> init[k] == steps[k];
      mid := ViewGrows(init, from, workers, run);
      LogMore(init, workers, step);
      var log := Log(init, workers);
      match step
      case Happens(other, what) =>
        ViewMore(log, Event(NextSeq(log), other, what), run, workers);
        if SameConversation(run, other, workers) {
          mid := mid + [Event(NextSeq(log), other, what)];
        }
      case Compacts(other, _, _, _, _) =>
        if FoldFor(init, workers, step).Some? {
          ViewMore(log, RecordOf(log, RunOf(other, workers), FoldFor(init, workers, step).value), run, workers);
        }
    }
  }

  /** A run that has had a turn compacts beside others at work in its conversation: the slice it planned to fold is
      replaced, and what they appended stays. */
  lemma {:induction false} CompactionBesideOthers(steps: seq<Step>, workers: set<RunId>, step: Step)
    requires step.Compacts? && FoldFor(steps, workers, step).Some? && Unfolded(steps, step.measured, workers, step.run)
    requires HasStarted(ViewOf(Log(steps[..step.measured], workers), step.run, workers), step.run)
    requires Increasing(Group(Verbatim(ViewOf(Log(steps, workers), step.run, workers), step.run)))
    ensures var was := ViewOf(Log(steps[..step.measured], workers), step.run, workers);
            var now, after := ViewOf(Log(steps, workers), step.run, workers),
                ViewOf(Log(steps + [step], workers), step.run, workers);
            && was <= now && now < after
                 && Records(was, step.run, Keep(step.given, step.overhead), FoldFor(steps, workers, step).value,
                      after[|now|])
            && CommutesMeanwhile(was, now[|was|..], step.run, Keep(step.given, step.overhead),
                 FoldFor(steps, workers, step).value, after[|now|])
  {
    hide Standing, Visible, Through, CompactionOf, Rebuild, PlanCompaction, Increasing, Group, Verbatim, Log, Keep,
        Sorted;
    hide HasStarted, CommutesMeanwhile, Unfolded;
    var log, run, fold := Log(steps, workers), step.run, FoldFor(steps, workers, step).value;
    var was, now := ViewOf(Log(steps[..step.measured], workers), run, workers), ViewOf(log, run, workers);
    var mid := ViewGrows(steps, step.measured, workers, run);
    assert now[|was|..] == mid;
    LogMore(steps, workers, step);
    var e := RecordOf(log, RunOf(run, workers), fold);
    ViewMore(log, e, run, workers);
    assert (now + [e])[|now|] == e;
    RecordedBy(was, run, step.overhead, step.given, Some(step.summary), e);
    LogSorted(steps, workers);
    LogSorted(steps[..step.measured], workers);
    VisibleSorted(log, RunOf(run, workers), workers);
    VisibleSorted(Log(steps[..step.measured], workers), RunOf(run, workers), workers);
    FoldsAreSound(steps[..step.measured], workers, run);
    FoldCommutesMeanwhile(was, mid, run, Keep(step.given, step.overhead), fold, e);
  }

  // ---- pruning, in every history -----------------------------------------------------------

  /** A prune is invisible to a run exactly when nothing it is still shown in full goes. */
  lemma {:induction false} PruneInvisibleIff(steps: seq<Step>, workers: set<RunId>, keepAfterFold: nat, viewer: RunId)
    ensures var log := Log(steps, workers);
            var now := Log(steps + [Prunes(keepAfterFold)], workers);
            (Rebuild(ViewOf(now, viewer, workers), viewer) == Rebuild(ViewOf(log, viewer, workers), viewer)) <==>
            forall x :: x in Verbatim(ViewOf(log, viewer, workers), viewer) && x.at <= CutFor(log, keepAfterFold) ==>
                Silent(x)
  {
    hide Visible, Rebuild, Verbatim, Pruned, CutFor, Log, Sorted;
    LogMore(steps, workers, Prunes(keepAfterFold));
    LogSorted(steps, workers);
    SafeForOthersIff(Log(steps, workers), keepAfterFold, RunOf(viewer, workers), workers);
  }

  ghost predicate FoldsBy(log: seq<Event>, workers: set<RunId>) {
    forall e :: e in log && e.payload.ConversationCompacted? ==> e.run !in workers
  }

  lemma {:induction false} NoWorkersFold(steps: seq<Step>, workers: set<RunId>)
    requires forall step :: step in steps && step.Compacts? ==> step.run !in workers
    ensures FoldsBy(Log(steps, workers), workers)
  {
    hide FoldFor, Pruned, CutFor, NextSeq;
    if steps != [] {
      var init, step := steps[..|steps| - 1], steps[|steps| - 1];
      assert step in steps && forall x :: x in init ==> x in steps;
      NoWorkersFold(init, workers);
      if step.Prunes? {
        PrunedIsLess(Log(init, workers), CutFor(Log(init, workers), step.keepAfterFold));
      }
    }
  }

  lemma {:induction false} PrunedIsLess(log: seq<Event>, cut: Seq)
    ensures forall e :: e in Pruned(log, cut) ==> e in log
  {
    if log != [] {
      PrunedIsLess(log[..|log| - 1], cut);
      assert log == log[..|log| - 1] + [log[|log| - 1]];
    }
  }

  /** As long as no worker compacts, no prune is ever visible in the conversation everybody shares. */
  lemma {:induction false} PrunesAreInvisible(steps: seq<Step>, workers: set<RunId>, keepAfterFold: nat, viewer: RunId)
    requires forall step :: step in steps && step.Compacts? ==> step.run !in workers
    requires viewer !in workers
    ensures var log, now := Log(steps, workers), Log(steps + [Prunes(keepAfterFold)], workers);
            Rebuild(ViewOf(now, viewer, workers), viewer) == Rebuild(ViewOf(log, viewer, workers), viewer)
  {
    hide Visible, Rebuild, Pruned, Log, Sorted, LastFold;
    var log := Log(steps, workers);
    LogMore(steps, workers, Prunes(keepAfterFold));
    LogSorted(steps, workers);
    NoWorkersFold(steps, workers);
    if LastFold(log) >= 0 {
      assert log[LastFold(log)] in log;
      SafeForItsReaders(log, keepAfterFold, RunOf(viewer, workers), workers);
    } else {
      PrunedNothing(log);
    }
  }

  // ---- everything ever appended --------------------------------------------------------------

  /** The log as it would be had nothing been discarded. */
  function Full(steps: seq<Step>, workers: set<RunId>): seq<Event> {
    if steps == [] then []
    else
      var init, step := steps[..|steps| - 1], steps[|steps| - 1];
      var log := Log(init, workers);
      match step
      case Happens(run, what) => Full(init, workers) + [Event(NextSeq(log), run, what)]
      case Prunes(_) => Full(init, workers)
      case Compacts(run, _, _, _, _) =>
        var fold := FoldFor(init, workers, step);
        if fold.None? then Full(init, workers)
        else Full(init, workers) + [RecordOf(log, RunOf(run, workers), fold.value)]
  }

  /** The furthest any prune has cut. */
  function Furthest(steps: seq<Step>, workers: set<RunId>): Seq {
    if steps == [] then 0
    else
      var init, step := steps[..|steps| - 1], steps[|steps| - 1];
      var before := Furthest(init, workers);
      if step.Prunes? && before < CutFor(Log(init, workers), step.keepAfterFold)
      then CutFor(Log(init, workers), step.keepAfterFold) else before
  }

  lemma {:induction false} FullMore(steps: seq<Step>, workers: set<RunId>, step: Step)
    ensures var log := Log(steps, workers);
            Full(steps + [step], workers) ==
            match step
            case Happens(run, what) => Full(steps, workers) + [Event(NextSeq(log), run, what)]
            case Prunes(_) => Full(steps, workers)
            case Compacts(run, _, _, _, _) =>
              var fold := FoldFor(steps, workers, step);
              if fold.None? then Full(steps, workers)
              else Full(steps, workers) + [RecordOf(log, RunOf(run, workers), fold.value)]
    ensures Furthest(steps + [step], workers) ==
            if step.Prunes? && Furthest(steps, workers) < CutFor(Log(steps, workers), step.keepAfterFold)
            then CutFor(Log(steps, workers), step.keepAfterFold) else Furthest(steps, workers)
  {
    hide FoldFor, Log, CutFor;
    assert (steps + [step])[..|steps|] == steps;
  }

  lemma {:induction false} PrunedTwice(log: seq<Event>, a: Seq, b: Seq)
    ensures Pruned(Pruned(log, a), b) == Pruned(log, if a < b then b else a)
  {
    if log != [] {
      var init, e := log[..|log| - 1], log[|log| - 1];
      PrunedTwice(init, a, b);
      assert log == init + [e];
      PrunedMore(Pruned(init, a), e, b);
    }
  }

  lemma {:induction false} CutBelowNext(log: seq<Event>, keepAfterFold: nat)
    requires Sorted(log)
    ensures CutFor(log, keepAfterFold) < NextSeq(log)
  {
    hide LastFold;
  }

  /** Nothing is discarded but what is at or before the furthest cut, and the folds in it stay. */
  lemma {:induction false} LogIsPruned(steps: seq<Step>, workers: set<RunId>)
    ensures Log(steps, workers) == Pruned(Full(steps, workers), Furthest(steps, workers))
    ensures Sorted(Full(steps, workers)) && NextSeq(Full(steps, workers)) == NextSeq(Log(steps, workers))
    ensures Furthest(steps, workers) < NextSeq(Log(steps, workers))
  {
    hide FoldFor, Log, CutFor, Pruned, Sorted, Full, Furthest, NextSeq;
    if steps == [] {
      NothingYet(workers);
    } else {
      var init, step := steps[..|steps| - 1], steps[|steps| - 1];
      assert steps == init + [step];
      LogIsPruned(init, workers);
      LogSorted(init, workers);
      FullMore(init, workers, step);
      LogMore(init, workers, step);
      var log, full, cut := Log(init, workers), Full(init, workers), Furthest(init, workers);
      match step
      case Happens(run, what) => Appends(log, full, cut, Event(NextSeq(log), run, what));
      case Prunes(keepAfterFold) =>
        PrunedTwice(full, cut, CutFor(log, keepAfterFold));
        CutBelowNext(log, keepAfterFold);
        NextNumberStays(log, keepAfterFold);
      case Compacts(run, _, _, _, _) =>
        if FoldFor(init, workers, step).Some? {
          Appends(log, full, cut, RecordOf(log, RunOf(run, workers), FoldFor(init, workers, step).value));
        }
    }
  }

  lemma {:induction false} NothingYet(workers: set<RunId>)
    ensures Log([], workers) == Full([], workers) == [] == Pruned([], 0) && Furthest([], workers) == 0 < NextSeq([])
              && Sorted([])
  {
  }

  lemma {:induction false} Appends(log: seq<Event>, full: seq<Event>, cut: Seq, e: Event)
    requires log == Pruned(full, cut) && Sorted(full) && NextSeq(full) == NextSeq(log) && cut < NextSeq(log)
    requires e.seqNo == NextSeq(log)
    ensures log + [e] == Pruned(full + [e], cut) && Sorted(full + [e]) && NextSeq(full + [e]) == NextSeq(log + [e])
    ensures cut < NextSeq(log + [e])
  {
    hide Pruned, Sorted;
    PrunedMore(full, e, cut);
    AppendedSorted(full, e);
  }

  /** Whatever the log ever placed for a run is shown to it in full exactly when it is past what the folds now reach
      and past everything that was discarded. */
  lemma {:induction false} ShownIff(steps: seq<Step>, workers: set<RunId>, asking: RunId, x: Item)
    ensures x in Verbatim(ViewOf(Log(steps, workers), asking, workers), asking)
       <==> && x in Placed(Live(ViewOf(Full(steps, workers), asking, workers)), asking)
            && ReachOf(steps, workers, asking) < x.at && Furthest(steps, workers) < x.at
  {
    hide FoldFor, Log, Pruned, Sorted, Full, Furthest, NextSeq, Visible, Verbatim, Placed, Live, ItemsAfter, Standing;
    var full, cut := ViewOf(Full(steps, workers), asking, workers), Furthest(steps, workers);
    LogIsPruned(steps, workers);
    PrunedView(Full(steps, workers), cut, RunOf(asking, workers), workers);
    VisibleSorted(Full(steps, workers), RunOf(asking, workers), workers);
    PrunedVerbatim(full, asking, cut);
    PrunedFolds(full, cut);
    VerbatimIsLate(full, asking);
    ItemsAfterIff(Verbatim(full, asking), cut, x);
    ItemsAfterIff(Placed(Live(full), asking), Through(full), x);
  }

  /** A question, or anything else, that the folds of a conversation have reached is shown to none of its runs again,
      as long as no fold recorded from then on ends before it. */
  lemma {:induction false} SwallowedForGood(steps: seq<Step>, from: nat, workers: set<RunId>, viewer: RunId,
      asking: RunId, at: Seq)
    requires from <= |steps| && at <= ReachOf(steps[..from], workers, viewer)
               && SameConversation(viewer, asking, workers)
    requires ReachAtLeast(steps, from, workers, viewer, at)
    ensures forall m :: m in Rebuild(ViewOf(Log(steps, workers), asking, workers), asking) && !m.fold ==> at < m.lastSeq
  {
    hide Standing, Visible, FoldFor, Through, Log, Rebuild, ReachAtLeast;
    StaysUpTo(steps, from, |steps|, workers, viewer, at);
    assert steps[..|steps|] == steps;
    SharedFolds(steps, workers, viewer, asking);
    LogSorted(steps, workers);
    VisibleSorted(Log(steps, workers), RunOf(asking, workers), workers);
    NeverShownAgain(ViewOf(Log(steps, workers), asking, workers), asking, at);
  }

  // ---- what is neither in the log nor in a fold -------------------------------------------------

  /** Appended to the viewer's conversation, and discarded. */
  ghost predicate Gone(steps: seq<Step>, workers: set<RunId>, viewer: RunId, e: Event) {
    e in ViewOf(Full(steps, workers), viewer, workers) && e !in ViewOf(Log(steps, workers), viewer, workers)
  }

  /** Whatever was discarded of the viewer's conversation lies in a fold that stands. */
  ghost predicate NothingLost(steps: seq<Step>, workers: set<RunId>, viewer: RunId) {
    forall e :: Gone(steps, workers, viewer, e) ==> Covered(FoldsOf(steps, workers, viewer), e.seqNo)
  }

  lemma {:induction false} GoneIff(steps: seq<Step>, workers: set<RunId>, viewer: RunId, e: Event)
    ensures Gone(steps, workers, viewer, e)
       <==> && e in ViewOf(Full(steps, workers), viewer, workers)
            && e.seqNo <= Furthest(steps, workers) && !e.payload.ConversationCompacted?
    ensures Gone(steps, workers, viewer, e) ==> 1 <= e.seqNo
  {
    hide FoldFor, Log, Pruned, Full, Furthest, NextSeq, Visible;
    LogIsPruned(steps, workers);
    PrunedView(Full(steps, workers), Furthest(steps, workers), RunOf(viewer, workers), workers);
    PrunedAre(ViewOf(Full(steps, workers), viewer, workers), Furthest(steps, workers), e);
    VisibleSorted(Full(steps, workers), RunOf(viewer, workers), workers);
  }

  /** While the folds cover the log, nothing is lost exactly when nothing past their end was discarded. */
  lemma {:induction false} NothingLostIff(steps: seq<Step>, workers: set<RunId>, viewer: RunId)
    requires WellFolded(FoldsOf(steps, workers, viewer))
    ensures NothingLost(steps, workers, viewer)
       <==> forall e :: Gone(steps, workers, viewer, e) ==> e.seqNo <= ReachOf(steps, workers, viewer)
  {
    hide FoldsOf, Covered, Gone, Reach;
    ReachIs(steps, workers, viewer);
    forall e | Gone(steps, workers, viewer, e)
      ensures Covered(FoldsOf(steps, workers, viewer), e.seqNo) <==> e.seqNo <= ReachOf(steps, workers, viewer)
    {
      GoneIff(steps, workers, viewer, e);
      CoveredIff(FoldsOf(steps, workers, viewer), e.seqNo);
    }
  }

  /** No prune cuts further than the folds of the conversation everybody shares reach, if no worker has compacted. */
  lemma {:induction false} CutWithinReach(steps: seq<Step>, workers: set<RunId>, keepAfterFold: nat, viewer: RunId)
    requires forall step :: step in steps && step.Compacts? ==> step.run !in workers
    requires viewer !in workers
    ensures CutFor(Log(steps, workers), keepAfterFold) <= ReachOf(steps, workers, viewer)
  {
    hide Visible, Pruned, Log, Through, LastFold;
    var log := Log(steps, workers);
    NoWorkersFold(steps, workers);
    if LastFold(log) >= 0 {
      assert log[LastFold(log)] in log;
      LastFoldInView(log, RunOf(viewer, workers), workers);
      ReachOfTheLast(ViewOf(log, viewer, workers));
    }
  }

  /** No fold is recorded that ends before something already discarded. The store knows how far it has discarded. */
  ghost predicate EachReachesTheGone(steps: seq<Step>, workers: set<RunId>, viewer: RunId) {
    forall k: nat, e ::
      k < |steps| && Folding(steps[..k], workers, steps[k], viewer) && Gone(steps[..k], workers, viewer, e) ==>
        e.seqNo <= FoldFor(steps[..k], workers, steps[k]).value.through
  }

  ghost predicate NeverLost(steps: seq<Step>, workers: set<RunId>, viewer: RunId) {
    forall n: nat :: n <= |steps| ==> NothingLost(steps[..n], workers, viewer)
  }

  lemma {:induction false} NeverLostMore(init: seq<Step>, step: Step, workers: set<RunId>, viewer: RunId)
    ensures NeverLost(init + [step], workers, viewer)
       <==> NeverLost(init, workers, viewer) && NothingLost(init + [step], workers, viewer)
  {
    hide NothingLost;
    var steps := init + [step];
    assert forall n: nat :: n <= |init| ==> steps[..n] == init[..n];
    assert steps[..|steps|] == steps;
    if NeverLost(steps, workers, viewer) {
      assert NothingLost(steps[..|steps|], workers, viewer);
      forall n: nat | n <= |init| ensures NothingLost(init[..n], workers, viewer) {
        assert NothingLost(steps[..n], workers, viewer);
      }
    }
  }

  lemma {:induction false} ReachesTheGoneMore(init: seq<Step>, step: Step, workers: set<RunId>, viewer: RunId)
    ensures EachReachesTheGone(init + [step], workers, viewer)
       <==> EachReachesTheGone(init, workers, viewer) &&
            (Folding(init, workers, step, viewer) ==>
               forall e :: Gone(init, workers, viewer, e) ==> e.seqNo <= FoldFor(init, workers, step).value.through)
  {
    hide FoldFor, Gone;
    var steps := init + [step];
    assert forall n: nat :: n <= |init| ==> steps[..n] == init[..n];
    assert steps[|init|] == step && init[..|init|] == init;
    if EachReachesTheGone(steps, workers, viewer) {
      forall k: nat, e | k < |init| && Folding(init[..k], workers, init[k], viewer)
          && Gone(init[..k], workers, viewer, e)
        ensures e.seqNo <= FoldFor(init[..k], workers, init[k]).value.through
      {
        assert steps[..k] == init[..k] && steps[k] == init[k];
      }
      if Folding(init, workers, step, viewer) {
        forall e | Gone(init, workers, viewer, e) ensures e.seqNo <= FoldFor(init, workers, step).value.through {
          assert steps[..|init|] == init;
        }
      }
    }
  }

  /** Whether anything is lost after one step more. */
  lemma {:induction false} LosesNothingIff(steps: seq<Step>, workers: set<RunId>, step: Step, viewer: RunId)
    requires forall s :: s in steps && s.Compacts? ==> s.run !in workers
    requires viewer !in workers && NothingLost(steps, workers, viewer)
    requires WellFolded(FoldsOf(steps, workers, viewer)) && WellFolded(FoldsOf(steps + [step], workers, viewer))
    ensures NothingLost(steps + [step], workers, viewer)
       <==> (Folding(steps, workers, step, viewer) ==>
               forall e :: Gone(steps, workers, viewer, e) ==> e.seqNo <= FoldFor(steps, workers, step).value.through)
  {
    hide FoldsOf, WellFolded, Gone, FoldFor, ReachOf, NothingLost;
    FoldsAfter(steps, workers, step, viewer);
    NothingLostIff(steps, workers, viewer);
    NothingLostIff(steps + [step], workers, viewer);
    if step.Prunes? {
      forall e | Gone(steps + [step], workers, viewer, e) ensures e.seqNo <= ReachOf(steps + [step], workers, viewer) {
        GoneByAPrune(steps, workers, step.keepAfterFold, viewer, e);
      }
    } else {
      forall e: Event ensures Gone(steps + [step], workers, viewer, e) <==> Gone(steps, workers, viewer, e) {
        GoneStays(steps, workers, step, viewer, e);
      }
    }
  }

  lemma {:induction false} GoneByAPrune(steps: seq<Step>, workers: set<RunId>, keepAfterFold: nat, viewer: RunId,
      e: Event)
    requires forall s :: s in steps && s.Compacts? ==> s.run !in workers
    requires viewer !in workers && Gone(steps + [Prunes(keepAfterFold)], workers, viewer, e)
    ensures Gone(steps, workers, viewer, e) || e.seqNo <= ReachOf(steps, workers, viewer)
  {
    hide Gone, ReachOf, Full, Log, CutFor, Visible, Furthest;
    GoneIff(steps + [Prunes(keepAfterFold)], workers, viewer, e);
    GoneIff(steps, workers, viewer, e);
    FullMore(steps, workers, Prunes(keepAfterFold));
    CutWithinReach(steps, workers, keepAfterFold, viewer);
  }

  lemma {:induction false} GoneStays(steps: seq<Step>, workers: set<RunId>, step: Step, viewer: RunId, e: Event)
    requires !step.Prunes?
    ensures Gone(steps + [step], workers, viewer, e) <==> Gone(steps, workers, viewer, e)
  {
    hide Gone, Full, Log, Visible, Furthest, FoldFor, NextSeq;
    GoneIff(steps + [step], workers, viewer, e);
    GoneIff(steps, workers, viewer, e);
    FullMore(steps, workers, step);
    LogIsPruned(steps, workers);
    var log, full := Log(steps, workers), Full(steps, workers);
    match step
    case Happens(run, what) => ViewMore(full, Event(NextSeq(log), run, what), viewer, workers);
    case Compacts(run, _, _, _, _) =>
      if FoldFor(steps, workers, step).Some? {
        ViewMore(full, RecordOf(log, RunOf(run, workers), FoldFor(steps, workers, step).value), viewer, workers);
      }
  }

  /** In the conversation everybody shares, while no worker compacts and every fold goes on from those that stand:
      everything discarded always lies in a standing fold exactly when no fold is ever recorded that ends before
      something already discarded. */
  lemma {:induction false} NeverLostIff(steps: seq<Step>, workers: set<RunId>, viewer: RunId)
    requires forall s :: s in steps && s.Compacts? ==> s.run !in workers
    requires viewer !in workers && AlwaysContinues(steps, workers, viewer)
    ensures NeverLost(steps, workers, viewer) <==> EachReachesTheGone(steps, workers, viewer)
  {
    hide FoldsOf, FoldFor, WellFolded, Continues, AlwaysContinues, NeverLost, EachReachesTheGone, NothingLost, Gone;
    if steps == [] {
      NothingGone(workers, viewer);
    } else {
      var init, step := steps[..|steps| - 1], steps[|steps| - 1];
      assert steps == init + [step] && forall s :: s in init ==> s in steps;
      ContinuesMore(init, step, workers, viewer);
      NeverLostIff(init, workers, viewer);
      NeverLostMore(init, step, workers, viewer);
      ReachesTheGoneMore(init, step, workers, viewer);
      FoldsTileIff(steps, workers, viewer);
      TiledNow(steps, workers, viewer);
      FoldsTileIff(init, workers, viewer);
      TiledNow(init, workers, viewer);
      if NeverLost(init, workers, viewer) {
        NotLostNow(init, workers, viewer);
        LosesNothingIff(init, workers, step, viewer);
      }
    }
  }

  lemma {:induction false} NotLostNow(steps: seq<Step>, workers: set<RunId>, viewer: RunId)
    requires NeverLost(steps, workers, viewer)
    ensures NothingLost(steps, workers, viewer)
  {
    hide NothingLost;
    assert steps[..|steps|] == steps;
  }

  lemma {:induction false} NothingGone(workers: set<RunId>, viewer: RunId)
    ensures NeverLost([], workers, viewer) && EachReachesTheGone([], workers, viewer)
  {
  }
}
