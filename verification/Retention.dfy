/** Discarding events that a summary replaced. */
module Retention {
  import opened Wrappers
  import opened Domain
  import opened Grouping
  import opened Placement
  import opened Folds

  /** Where the most recent fold is in the log, or -1. */
  function LastFold(events: seq<Event>): (at: int)
    ensures -1 <= at < |events|
    ensures at >= 0 ==> events[at].payload.ConversationCompacted?
    ensures forall k :: at < k < |events| ==> !events[k].payload.ConversationCompacted?
  {
    if events == [] then -1
    else if events[|events| - 1].payload.ConversationCompacted? then |events| - 1
    else LastFold(events[..|events| - 1])
  }

  /** The highest sequence number that may be discarded. */
  function CutFor(events: seq<Event>, keepAfterFold: nat): Seq {
    var last := LastFold(events);
    if last <= 0 || last - 1 - keepAfterFold < 0 then 0
    else
      var before, reach := events[last - 1 - keepAfterFold].seqNo, events[last].payload.fold.through;
      if before > reach then reach else before
  }

  method SafeCut(events: seq<Event>, keepAfterFold: nat) returns (cut: Seq)
    ensures cut == CutFor(events, keepAfterFold)
  {
    var lastFold := -1;
    var reach := 0;
    for index := 0 to |events|
      invariant lastFold == LastFold(events[..index])
      invariant lastFold >= 0 ==> reach == events[lastFold].payload.fold.through
    {
      assert events[..index + 1][..index] == events[..index];
      if events[index].payload.ConversationCompacted? {
        lastFold := index;
        reach := events[index].payload.fold.through;
      }
    }
    assert events[..|events|] == events;
    if lastFold <= 0 {
      return 0;
    }
    var cutIndex := lastFold - 1 - keepAfterFold;
    if cutIndex < 0 {
      return 0;
    }
    cut := events[cutIndex].seqNo;
    if cut > reach {
      cut := reach;
    }
  }

  /** What the store keeps when it discards through `cut`: everything later, and every record of a fold. */
  function Pruned(log: seq<Event>, cut: Seq): seq<Event> {
    if log == [] then []
    else
      var kept := Pruned(log[..|log| - 1], cut);
      var e := log[|log| - 1];
      if cut < e.seqNo || e.payload.ConversationCompacted? then kept + [e] else kept
  }

  /** Returns the log that is left. */
  method PruneSession(log: seq<Event>, keepAfterFold: int) returns (left: seq<Event>)
    requires Sorted(log)
    ensures left == Pruned(log, CutFor(log, if keepAfterFold < 0 then 0 else keepAfterFold))
  {
    PrunedNothing(log);
    var cut := SafeCut(log, if keepAfterFold < 0 then 0 else keepAfterFold);
    if cut <= 0 {
      return log;
    }
    left := Pruned(log, cut);
  }

  lemma {:induction false} PrunedNothing(log: seq<Event>)
    requires Sorted(log)
    ensures Pruned(log, 0) == log
  {
    if log != [] {
      SortedPrefix(log, |log| - 1);
      PrunedNothing(log[..|log| - 1]);
    }
  }

  lemma {:induction false} PrunedMore(log: seq<Event>, e: Event, cut: Seq)
    ensures Pruned(log + [e], cut)
         == Pruned(log, cut) + (if cut < e.seqNo || e.payload.ConversationCompacted? then [e] else [])
  {
    assert (log + [e])[..|log|] == log;
  }

  lemma {:induction false} PrunedView(log: seq<Event>, cut: Seq, asking: Run, delegated: set<RunId>)
    ensures Visible(Pruned(log, cut), asking, delegated) == Pruned(Visible(log, asking, delegated), cut)
  {
    if log != [] {
      var init, e := log[..|log| - 1], log[|log| - 1];
      PrunedView(init, cut, asking, delegated);
      VisibleMore(Pruned(init, cut), e, asking, delegated);
      PrunedMore(Visible(init, asking, delegated), e, cut);
    }
  }

  lemma {:induction false} PrunedFolds(view: seq<Event>, cut: Seq)
    ensures Standing(Pruned(view, cut)) == Standing(view)
  {
    if view != [] {
      var init, e := view[..|view| - 1], view[|view| - 1];
      PrunedFolds(init, cut);
      var kept := Pruned(init, cut);
      assert (kept + [e])[..|kept|] == kept;
    }
  }

  /** One event more, before and after pruning. */
  lemma {:induction false} PrunedLiveMore(init: seq<Event>, e: Event, t: Seq, cut: Seq)
    requires Live(EventsAfter(Pruned(init, cut), t)) == EventsAfter(Live(EventsAfter(init, t)), cut)
    ensures Live(EventsAfter(Pruned(init + [e], cut), t)) == EventsAfter(Live(EventsAfter(init + [e], t)), cut)
  {
    hide Live, EventsAfter, Pruned;
    PrunedMore(init, e, cut);
    AfterMore(init, e, t);
    AfterMore(Pruned(init, cut), e, t);
    if t < e.seqNo {
      LiveMore(EventsAfter(init, t), e);
      LiveMore(EventsAfter(Pruned(init, cut), t), e);
      AfterMore(Live(EventsAfter(init, t)), e, cut);
    }
    NothingAdded(EventsAfter(Pruned(init, cut), t));
    NothingAdded(Pruned(init, cut));
    NothingAdded(EventsAfter(init, t));
    NothingAdded(Live(EventsAfter(init, t)));
    NothingAdded(Live(EventsAfter(Pruned(init, cut), t)));
  }

  lemma {:induction false} PrunedLive(view: seq<Event>, t: Seq, cut: Seq)
    ensures Live(EventsAfter(Pruned(view, cut), t)) == EventsAfter(Live(EventsAfter(view, t)), cut)
  {
    hide Live, EventsAfter, Pruned;
    if view != [] {
      var init, e := view[..|view| - 1], view[|view| - 1];
      assert view == init + [e];
      PrunedLive(init, t, cut);
      PrunedLiveMore(init, e, t, cut);
    } else {
      NoneLeft(t, cut);
    }
  }

  lemma {:induction false} NoneLeft(t: Seq, cut: Seq)
    ensures Live(EventsAfter(Pruned([], cut), t)) == EventsAfter(Live(EventsAfter([], t)), cut) == []
  {
  }

  lemma {:induction false} PrunedVerbatim(view: seq<Event>, asking: RunId, cut: Seq)
    requires Sorted(view)
    ensures Verbatim(Pruned(view, cut), asking) == ItemsAfter(Verbatim(view, asking), cut)
  {
    hide Standing, Live, EventsAfter, Pruned, Placed, ItemsAfter;
    PrunedFolds(view, cut);
    PrunedLive(view, Through(view), cut);
    AfterSorted(view, Through(view));
    LiveSorted(EventsAfter(view, Through(view)));
    PlacedAfter(Live(EventsAfter(view, Through(view))), asking, cut);
  }

  /** Dropping through `cut` drops the first `k` items and nothing else, and those say nothing. */
  ghost predicate DropsSilence(items: seq<Item>, cut: Seq, k: nat) {
    && k <= |items| && ItemsAfter(items, cut) == items[k..]
    && forall x :: x in items[..k] ==> Silent(x)
  }

  lemma {:induction false} DropsTheLead(items: seq<Item>, cut: Seq)
    requires Ordered(items) && forall x :: x in items && x.at <= cut ==> Silent(x)
    ensures exists k: nat :: DropsSilence(items, cut, k)
  {
    if items == [] {
      assert DropsSilence(items, cut, 0);
    } else {
      hide Ordered, Silent, DropsSilence, ItemsAfter;
      var init, x := items[..|items| - 1], items[|items| - 1];
      assert items == init + [x];
      OrderedInit(init, x);
      DropsTheLead(init, cut);
      var k: nat :| DropsSilence(init, cut, k);
      if cut < x.at {
        KeepsTheLast(init, x, cut, k);
      } else {
        EverythingDrops(init, x, cut);
      }
    }
  }

  lemma {:induction false} KeepsTheLast(init: seq<Item>, x: Item, cut: Seq, k: nat)
    requires DropsSilence(init, cut, k) && cut < x.at
    ensures DropsSilence(init + [x], cut, k)
  {
    assert (init + [x])[..|init|] == init;
    assert (init + [x])[k..] == init[k..] + [x] && (init + [x])[..k] == init[..k];
  }

  lemma {:induction false} OrderedInit(init: seq<Item>, x: Item)
    requires Ordered(init + [x])
    ensures Ordered(init)
    ensures !x.Said? ==> forall y :: y in init ==> y.at < x.at
  {
    var items := init + [x];
    assert forall i :: 0 <= i < |init| ==> items[i] == init[i];
    assert items[|init|] == x;
  }

  lemma {:induction false} EverythingDrops(init: seq<Item>, x: Item, cut: Seq)
    requires Ordered(init + [x]) && Silent(x) && x.at <= cut
    requires forall y :: y in init && y.at <= cut ==> Silent(y)
    ensures DropsSilence(init + [x], cut, |init| + 1)
  {
    hide ItemsAfter;
    OrderedInit(init, x);
    NoItemsAfter(init + [x], cut);
    assert (init + [x])[..|init| + 1] == init + [x];
  }

  lemma {:induction false} DroppedMass(items: seq<Item>, cut: Seq)
    requires Mass(ItemsContent(ItemsAfter(items, cut))) == Mass(ItemsContent(items))
    ensures forall x :: x in items && x.at <= cut ==> Silent(x)
  {
    if items != [] {
      var init, x := items[..|items| - 1], items[|items| - 1];
      assert items == init + [x];
      NoMoreMass(init, cut);
      MassPlus(ItemsContent(init), ItemContent(x));
      var kept := ItemsAfter(init, cut);
      assert (kept + [x])[..|kept|] == kept;
      MassPlus(ItemsContent(kept), ItemContent(x));
      DroppedMass(init, cut);
    }
  }

  lemma {:induction false} NoMoreMass(items: seq<Item>, cut: Seq)
    ensures Mass(ItemsContent(ItemsAfter(items, cut))) <= Mass(ItemsContent(items))
  {
    if items != [] {
      var init, x := items[..|items| - 1], items[|items| - 1];
      NoMoreMass(init, cut);
      MassPlus(ItemsContent(init), ItemContent(x));
      var kept := ItemsAfter(init, cut);
      assert (kept + [x])[..|kept|] == kept;
      MassPlus(ItemsContent(kept), ItemContent(x));
    }
  }

  /** Discarding through `cut` is invisible to a rebuild exactly when nothing that still says anything is discarded. */
  lemma {:induction false} PruningInvisibleIff(view: seq<Event>, asking: RunId, cut: Seq)
    requires Sorted(view)
    ensures Rebuild(Pruned(view, cut), asking) == Rebuild(view, asking)
       <==> forall x :: x in Verbatim(view, asking) && x.at <= cut ==> Silent(x)
  {
    hide Standing, Live, EventsAfter, Pruned, Placed, ItemsAfter, Group, Verbatim;
    var items := Verbatim(view, asking);
    PrunedFolds(view, cut);
    PrunedVerbatim(view, asking, cut);
    SameTail(Seeds(Standing(view)), Group(ItemsAfter(items, cut)), Group(items));
    AfterSorted(view, Through(view));
    LiveSorted(EventsAfter(view, Through(view)));
    assert Ordered(items) by {
      PlacedOrdered(Live(EventsAfter(view, Through(view))), asking);
      assert items == Placed(Live(EventsAfter(view, Through(view))), asking) by { VerbatimIs(view, asking); }
    }
    if Group(ItemsAfter(items, cut)) == Group(items) {
      GroupConserves(items);
      GroupConserves(ItemsAfter(items, cut));
      DroppedMass(items, cut);
    }
    if forall x :: x in items && x.at <= cut ==> Silent(x) {
      DropsTheLead(items, cut);
      var k: nat :| DropsSilence(items, cut, k);
      SilentLead(items[..k], items[k..]);
      assert items[..k] + items[k..] == items;
    }
  }

  lemma {:induction false} VerbatimIs(view: seq<Event>, asking: RunId)
    ensures Verbatim(view, asking) == Placed(Live(EventsAfter(view, Through(view))), asking)
  {
  }

  // ---- the cut that is chosen -------------------------------------------------------------

  /** The folds of a view reach as far as the last one recorded in it. */
  lemma {:induction false} ReachOfTheLast(view: seq<Event>)
    ensures Through(view) == if LastFold(view) < 0 then 0 else view[LastFold(view)].payload.fold.through
  {
    if view != [] {
      ReachOfTheLast(view[..|view| - 1]);
    }
  }

  /** A run that may read the last fold of the log has that one as its last. */
  lemma {:induction false} LastFoldInView(log: seq<Event>, asking: Run, delegated: set<RunId>)
    requires LastFold(log) >= 0 && MayRead(log[LastFold(log)], asking, delegated)
    ensures var view := Visible(log, asking, delegated);
            LastFold(view) >= 0 && view[LastFold(view)] == log[LastFold(log)]
  {
    var init, e := log[..|log| - 1], log[|log| - 1];
    if !e.payload.ConversationCompacted? {
      LastFoldInView(init, asking, delegated);
    }
    var kept := Visible(init, asking, delegated);
    if MayRead(e, asking, delegated) {
      assert (kept + [e])[..|kept|] == kept;
    }
  }

  lemma {:induction false} ReplayedIsLate(view: seq<Event>, asking: RunId)
    requires Sorted(view)
    ensures forall x :: x in Verbatim(view, asking) ==> Through(view) < x.at
  {
    hide Standing, Placed, ItemsAfter;
    var t, late := Through(view), EventsAfter(view, Through(view));
    AfterSorted(view, t);
    LiveSorted(late);
    LiveAfter(late, t);
    AfterAfter(view, t, t);
    PlacedAfter(Live(late), asking, t);
    assert Verbatim(view, asking) == ItemsAfter(Verbatim(view, asking), t);
  }

  lemma {:induction false} PrunedAre(log: seq<Event>, cut: Seq, e: Event)
    ensures e in Pruned(log, cut) <==> e in log && (cut < e.seqNo || e.payload.ConversationCompacted?)
  {
    if log != [] {
      PrunedAre(log[..|log| - 1], cut, e);
      assert log == log[..|log| - 1] + [log[|log| - 1]];
    }
  }

  /** The record of the last fold is at `last`. */
  ghost predicate LastRecord(log: seq<Event>, last: nat) {
    && last < |log| && log[last].payload.ConversationCompacted?
    && forall k :: last < k < |log| ==> !log[k].payload.ConversationCompacted?
  }

  /** An event goes exactly when it is not the record of a fold, lies within the reach of the last fold, and comes
      before its record by more than the margin. */
  lemma {:induction false} GoesIff(log: seq<Event>, keepAfterFold: int, k: nat)
    requires Sorted(log) && k < |log|
    ensures log[k] !in Pruned(log, CutFor(log, if keepAfterFold < 0 then 0 else keepAfterFold)) <==>
            && !log[k].payload.ConversationCompacted?
            && exists last: nat :: LastRecord(log, last) && log[k].seqNo <= log[last].payload.fold.through
                 && k < last && (keepAfterFold > 0 ==> k + keepAfterFold < last)
  {
    hide LastFold, Pruned;
    var keep: nat := if keepAfterFold < 0 then 0 else keepAfterFold;
    PrunedAre(log, CutFor(log, keep), log[k]);
    var last := LastFold(log);
    if last >= 0 {
      assert LastRecord(log, last);
    }
  }

  /** The cut chosen from the whole log is invisible to every run that may read the last fold. */
  lemma {:induction false} SafeForItsReaders(log: seq<Event>, keepAfterFold: nat, asking: Run, delegated: set<RunId>)
    requires Sorted(log) && LastFold(log) >= 0 && MayRead(log[LastFold(log)], asking, delegated)
    ensures var left := Pruned(log, CutFor(log, keepAfterFold));
            Rebuild(Visible(left, asking, delegated), asking.id) == Rebuild(Visible(log, asking, delegated), asking.id)
  {
    hide Standing, Visible, Pruned, Rebuild, Verbatim, LastFold;
    var view, cut := Visible(log, asking, delegated), CutFor(log, keepAfterFold);
    PrunedView(log, cut, asking, delegated);
    VisibleSorted(log, asking, delegated);
    LastFoldInView(log, asking, delegated);
    ReachOfTheLast(view);
    ReplayedIsLate(view, asking.id);
    PruningInvisibleIff(view, asking.id, cut);
  }

  /** A run that may not read the last fold keeps its conversation exactly when the cut spares everything
      it is still shown in full. */
  lemma {:induction false} SafeForOthersIff(log: seq<Event>, keepAfterFold: nat, asking: Run, delegated: set<RunId>)
    requires Sorted(log)
    ensures var left, cut := Pruned(log, CutFor(log, keepAfterFold)), CutFor(log, keepAfterFold);
            var view := Visible(log, asking, delegated);
            (Rebuild(Visible(left, asking, delegated), asking.id) == Rebuild(view, asking.id)) <==>
            forall x :: x in Verbatim(view, asking.id) && x.at <= cut ==> Silent(x)
  {
    hide Standing, Visible, Pruned, Rebuild, Verbatim, LastFold;
    PrunedView(log, CutFor(log, keepAfterFold), asking, delegated);
    VisibleSorted(log, asking, delegated);
    PruningInvisibleIff(Visible(log, asking, delegated), asking.id, CutFor(log, keepAfterFold));
  }
}
