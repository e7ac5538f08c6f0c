/** Folds: which recorded summaries still stand, and the conversation they open. */
module Folds {
  import opened Domain
  import opened Grouping
  import opened Placement

  const PREAMBLE: string := "Summary of the earlier part of this conversation, which is no longer included in full:\n\n"

  /** A run, as far as it decides what it may read. */
  datatype Run = Run(id: RunId, worker: bool)

  function StartingBefore(folds: seq<Fold>, from: Seq): seq<Fold> {
    if folds == [] then []
    else
      var kept := StartingBefore(folds[..|folds| - 1], from);
      if folds[|folds| - 1].from < from then kept + [folds[|folds| - 1]] else kept
  }

  /** A fold replaces every earlier one whose range begins at or after its own start. */
  function Standing(es: seq<Event>): seq<Fold> {
    if es == [] then []
    else
      var earlier := Standing(es[..|es| - 1]);
      match es[|es| - 1].payload
      case ConversationCompacted(fold) => StartingBefore(earlier, fold.from) + [fold]
      case _ => earlier
  }

  method FoldsIn(events: seq<Event>) returns (standing: seq<Fold>)
    ensures standing == Standing(events)
  {
    standing := [];
    for i := 0 to |events|
      invariant standing == Standing(events[..i])
    {
      assert events[..i + 1][..i] == events[..i];
      if events[i].payload.ConversationCompacted? {
        var fold := events[i].payload.fold;
        var kept := [];
        for j := 0 to |standing|
          invariant kept == StartingBefore(standing[..j], fold.from)
        {
          assert standing[..j + 1][..j] == standing[..j];
          if standing[j].from < fold.from {
            kept := kept + [standing[j]];
          }
        }
        assert standing[..|standing|] == standing;
        standing := kept + [fold];
      }
    }
    assert events[..|events|] == events;
  }

  /** How far the standing folds reach. */
  function Through(es: seq<Event>): Seq {
    if Standing(es) == [] then 0 else Standing(es)[|Standing(es)| - 1].through
  }

  /** The events a conversation is made of: not the records of its compactions. */
  function Live(es: seq<Event>): seq<Event> {
    if es == [] then []
    else
      var kept := Live(es[..|es| - 1]);
      if es[|es| - 1].payload.ConversationCompacted? then kept else kept + [es[|es| - 1]]
  }

  function SeedMessage(fold: Fold): Bounded {
    Bounded(Message(User, [Text(PREAMBLE + fold.summary)]), fold.through, Unstated, true, fold.from)
  }

  function Seeds(folds: seq<Fold>): (r: seq<Bounded>)
    ensures |r| == |folds|
    ensures forall k :: 0 <= k < |r| ==> r[k] == SeedMessage(folds[k])
  {
    seq(|folds|, k requires 0 <= k < |folds| => SeedMessage(folds[k]))
  }

  /** The items of the verbatim part. */
  function Verbatim(view: seq<Event>, asking: RunId): seq<Item> {
    Placed(Live(EventsAfter(view, Through(view))), asking)
  }

  /** The conversation rebuilt from what one run may read. */
  function Rebuild(view: seq<Event>, asking: RunId): seq<Bounded> {
    Seeds(Standing(view)) + Group(Verbatim(view, asking))
  }

  predicate MayRead(e: Event, asking: Run, delegated: set<RunId>) {
    if asking.worker then e.run == asking.id else e.run !in delegated
  }

  /** A worker sees only itself; everybody else sees everything except a worker. */
  function Visible(log: seq<Event>, asking: Run, delegated: set<RunId>): seq<Event> {
    if log == [] then []
    else
      var kept := Visible(log[..|log| - 1], asking, delegated);
      if MayRead(log[|log| - 1], asking, delegated) then kept + [log[|log| - 1]] else kept
  }

  /** What stands for a fold: words from the user, which say that this is a summary and then give it, with the range
      of the fold. */
  ghost predicate Summarises(m: Bounded, fold: Fold) {
    && m.message.role.User? && m.fold && m.fromSeq == fold.from && m.lastSeq == fold.through
    && var words := "Summary of the earlier part of this conversation, which is no longer included in full:\n\n";
       m.message.content == [Text(words + fold.summary)]
  }

  /** A conversation opens with its summaries, one for each standing fold in order. */
  lemma {:induction false} OpensWithItsSummaries(view: seq<Event>, asking: RunId)
    ensures var standing, ms := Standing(view), Rebuild(view, asking);
            |standing| <= |ms| && forall k :: 0 <= k < |standing| ==> Summarises(ms[k], standing[k])
  {
    hide Standing, Group, Verbatim;
  }

  // ---- which folds stand -------------------------------------------------------

  ghost predicate StrictStarts(folds: seq<Fold>) {
    forall i, j :: 0 <= i < j < |folds| ==> folds[i].from < folds[j].from
  }

  lemma {:induction false} StartingBeforeIff(folds: seq<Fold>, from: Seq, f: Fold)
    ensures f in StartingBefore(folds, from) <==> f in folds && f.from < from
  {
    if folds != [] {
      StartingBeforeIff(folds[..|folds| - 1], from, f);
      assert folds == folds[..|folds| - 1] + [folds[|folds| - 1]];
    }
  }

  lemma {:induction false} StartingBeforeOrdered(folds: seq<Fold>, from: Seq)
    requires StrictStarts(folds)
    ensures StrictStarts(StartingBefore(folds, from))
    ensures forall f :: f in StartingBefore(folds, from) ==> f in folds && f.from < from
  {
    if folds != [] {
      var init, last := folds[..|folds| - 1], folds[|folds| - 1];
      StartingBeforeOrdered(init, from);
      var kept := StartingBefore(init, from);
      forall k | 0 <= k < |kept| ensures kept[k].from < last.from {
        assert kept[k] in init;
      }
    }
  }

  /** What starts before a point comes first. */
  lemma {:induction false} KeptIsPrefix(folds: seq<Fold>, from: Seq)
    requires StrictStarts(folds)
    ensures var n := |StartingBefore(folds, from)|;
            && n <= |folds| && StartingBefore(folds, from) == folds[..n]
            && (forall k :: 0 <= k < n ==> folds[k].from < from)
            && (forall k :: n <= k < |folds| ==> from <= folds[k].from)
  {
    if folds != [] {
      var init, last := folds[..|folds| - 1], folds[|folds| - 1];
      KeptIsPrefix(init, from);
      StartingBeforeLast(folds, from);
      hide StartingBefore;
      var n := |StartingBefore(init, from)|;
      assert forall k :: 0 <= k < |init| ==> init[k] == folds[k];
      if last.from < from {
        assert n == |init|;
        assert init + [last] == folds;
      } else {
        assert folds[..n] == init[..n];
      }
    }
  }

  lemma {:induction false} StartingBeforeLast(folds: seq<Fold>, from: Seq)
    requires folds != []
    ensures var before, last := StartingBefore(folds[..|folds| - 1], from), folds[|folds| - 1];
            StartingBefore(folds, from) == if last.from < from then before + [last] else before
  {
  }

  /** The standing folds fall in the order their ranges begin. */
  lemma {:induction false} StandingStartsIncrease(es: seq<Event>)
    ensures StrictStarts(Standing(es))
  {
    if es != [] {
      StandingStartsIncrease(es[..|es| - 1]);
      if es[|es| - 1].payload.ConversationCompacted? {
        var earlier, fold := Standing(es[..|es| - 1]), es[|es| - 1].payload.fold;
        StartingBeforeOrdered(earlier, fold.from);
        StartsThen(StartingBefore(earlier, fold.from), fold);
      }
    }
  }

  lemma {:induction false} StartsThen(kept: seq<Fold>, fold: Fold)
    requires StrictStarts(kept) && forall f :: f in kept ==> f.from < fold.from
    ensures StrictStarts(kept + [fold])
  {
    assert forall k :: 0 <= k < |kept| ==> kept[k] in kept;
  }

  /** `f` was recorded at `i` and nothing since begins at or before it. */
  ghost predicate StandsFrom(es: seq<Event>, i: nat, f: Fold) {
    && i < |es| && es[i].payload == ConversationCompacted(f)
    && forall k :: i < k < |es| && es[k].payload.ConversationCompacted? ==> f.from < es[k].payload.fold.from
  }

  lemma {:induction false} NextStands(init: seq<Event>, e: Event, i: nat, f: Fold)
    ensures i < |init| ==>
              (StandsFrom(init + [e], i, f) <==>
               StandsFrom(init, i, f) && (e.payload.ConversationCompacted? ==> f.from < e.payload.fold.from))
    ensures StandsFrom(init + [e], |init|, f) <==> e.payload == ConversationCompacted(f)
  {
    var es := init + [e];
    assert es[|init|] == e;
    assert forall k :: 0 <= k < |init| ==> es[k] == init[k];
  }

  /** A fold stands exactly when no later fold begins at or before its own start. */
  lemma {:induction false} StandsIff(es: seq<Event>, f: Fold)
    ensures f in Standing(es) <==> exists i: nat :: StandsFrom(es, i, f)
  {
    if es != [] {
      var init, e := es[..|es| - 1], es[|es| - 1];
      assert es == init + [e];
      StandsIff(init, f);
      NextStands(init, e, |init|, f);
      if e.payload.ConversationCompacted? {
        StartingBeforeIff(Standing(init), e.payload.fold.from, f);
      }
      if f in Standing(es) {
        if e.payload == ConversationCompacted(f) {
          assert StandsFrom(es, |init|, f);
        } else {
          var i: nat :| StandsFrom(init, i, f);
          NextStands(init, e, i, f);
          assert StandsFrom(es, i, f);
        }
      }
      if i: nat :| StandsFrom(es, i, f) {
        NextStands(init, e, i, f);
      }
    }
  }

  // ---- views ---------------------------------------------------------------------

  lemma {:induction false} VisibleMore(log: seq<Event>, e: Event, asking: Run, delegated: set<RunId>)
    ensures Visible(log + [e], asking, delegated)
         == Visible(log, asking, delegated) + (if MayRead(e, asking, delegated) then [e] else [])
  {
    assert (log + [e])[..|log|] == log;
  }

  ghost predicate UpTo(es: seq<Event>, t: Seq) {
    forall i :: 0 <= i < |es| ==> es[i].seqNo <= t
  }

  lemma {:induction false} SortedMore(es: seq<Event>, e: Event)
    requires Sorted(es) && 0 < e.seqNo && UpTo(es, e.seqNo - 1)
    ensures Sorted(es + [e])
  {
  }

  lemma {:induction false} VisibleSorted(log: seq<Event>, asking: Run, delegated: set<RunId>)
    requires Sorted(log)
    ensures Sorted(Visible(log, asking, delegated))
    ensures log != [] ==> UpTo(Visible(log, asking, delegated), log[|log| - 1].seqNo)
  {
    if log != [] {
      var init, e := log[..|log| - 1], log[|log| - 1];
      SortedPrefix(log, |log| - 1);
      VisibleSorted(init, asking, delegated);
      assert UpTo(Visible(init, asking, delegated), e.seqNo - 1);
      if MayRead(e, asking, delegated) {
        SortedMore(Visible(init, asking, delegated), e);
      }
    }
  }

  lemma {:induction false} LiveSorted(es: seq<Event>)
    requires Sorted(es)
    ensures Sorted(Live(es))
    ensures es != [] ==> UpTo(Live(es), es[|es| - 1].seqNo)
  {
    if es != [] {
      var init, e := es[..|es| - 1], es[|es| - 1];
      SortedPrefix(es, |es| - 1);
      LiveSorted(init);
      assert UpTo(Live(init), e.seqNo - 1);
      if !e.payload.ConversationCompacted? {
        SortedMore(Live(init), e);
      }
    }
  }

  lemma {:induction false} AfterSorted(es: seq<Event>, t: Seq)
    requires Sorted(es)
    ensures Sorted(EventsAfter(es, t))
    ensures es != [] ==> UpTo(EventsAfter(es, t), es[|es| - 1].seqNo)
  {
    if es != [] {
      var init, e := es[..|es| - 1], es[|es| - 1];
      SortedPrefix(es, |es| - 1);
      AfterSorted(init, t);
      assert UpTo(EventsAfter(init, t), e.seqNo - 1);
      if t < e.seqNo {
        SortedMore(EventsAfter(init, t), e);
      }
    }
  }

  lemma {:induction false} AfterMore(es: seq<Event>, e: Event, t: Seq)
    ensures EventsAfter(es + [e], t) == EventsAfter(es, t) + (if t < e.seqNo then [e] else [])
  {
    assert (es + [e])[..|es|] == es;
  }

  lemma {:induction false} LiveMore(es: seq<Event>, e: Event)
    ensures Live(es + [e]) == Live(es) + (if e.payload.ConversationCompacted? then [] else [e])
  {
    assert (es + [e])[..|es|] == es;
  }

  lemma {:induction false} LiveAfter(es: seq<Event>, t: Seq)
    ensures Live(EventsAfter(es, t)) == EventsAfter(Live(es), t)
  {
    if es != [] {
      var init, e := es[..|es| - 1], es[|es| - 1];
      LiveAfter(init, t);
      LiveMore(EventsAfter(init, t), e);
      AfterMore(Live(init), e, t);
    }
  }

  lemma {:induction false} AfterAfter(es: seq<Event>, t: Seq, u: Seq)
    requires t <= u
    ensures EventsAfter(EventsAfter(es, t), u) == EventsAfter(es, u)
  {
    if es != [] {
      AfterAfter(es[..|es| - 1], t, u);
      AfterMore(EventsAfter(es[..|es| - 1], t), es[|es| - 1], u);
    }
  }
}
