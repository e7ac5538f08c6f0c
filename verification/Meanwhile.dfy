/** What a fold does to events the plan was not made for: those that arrive while the summary is
    written, and questions that sit behind another run's work. */
module Meanwhile {
  import opened Wrappers
  import opened Domain
  import opened Grouping
  import opened Placement
  import opened Folds
  import opened Estimate
  import opened Compaction
  import Retention

  // ---- events that arrive while the summary is written ---------------------------------

  ghost predicate NoFolds(es: seq<Event>) {
    forall e :: e in es ==> !e.payload.ConversationCompacted?
  }

  lemma {:induction false} StandingThrough(view: seq<Event>, mid: seq<Event>)
    requires NoFolds(mid)
    ensures Standing(view + mid) == Standing(view)
  {
    if mid == [] {
      assert view + mid == view;
    } else {
      assert mid[|mid| - 1] in mid;
      assert (view + mid)[..|view + mid| - 1] == view + mid[..|mid| - 1];
      StandingThrough(view, mid[..|mid| - 1]);
    }
  }

  lemma {:induction false} LiveAfterStep(view: seq<Event>, e: Event, t: Seq)
    ensures Live(EventsAfter(view, t)) <= Live(EventsAfter(view + [e], t))
  {
    hide Live, EventsAfter;
    AfterMore(view, e, t);
    if t < e.seqNo {
      LiveMore(EventsAfter(view, t), e);
    } else {
      assert EventsAfter(view, t) + [] == EventsAfter(view, t);
    }
  }

  lemma {:induction false} LiveAfterMore(view: seq<Event>, mid: seq<Event>, t: Seq)
    ensures Live(EventsAfter(view, t)) <= Live(EventsAfter(view + mid, t))
  {
    hide Live, EventsAfter;
    if mid == [] {
      assert view + mid == view;
    } else {
      var init, e := mid[..|mid| - 1], mid[|mid| - 1];
      LiveAfterMore(view, init, t);
      assert view + mid == (view + init) + [e];
      LiveAfterStep(view + init, e, t);
    }
  }

  /** Messages already closed stay as they are; only the last one may still grow. */
  lemma {:induction false} ClosedMessagesStay(items: seq<Item>, more: seq<Item>, cut: nat)
    requires cut < |Group(items)|
    ensures cut < |Group(items + more)| && Group(items + more)[..cut] == Group(items)[..cut]
  {
    if more == [] {
      assert items + more == items;
    } else {
      ClosedMessagesStay(items, more[..|more| - 1], cut);
      assert (items + more)[..|items + more| - 1] == items + more[..|more| - 1];
      FeedKeeps(Feeds(EMPTY, items + more[..|more| - 1]), more[|more| - 1], cut);
    }
  }

  lemma {:induction false} FeedKeeps(d: Draft, x: Item, cut: nat)
    requires cut < |Finish(d)|
    ensures cut < |Finish(Feed(d, x))| && Finish(Feed(d, x))[..cut] == Finish(d)[..cut]
  {
  }

  /** Nothing of the asking run's is waiting: it has had a turn before. On its first turn a run compacts before it
      records that it is running, and its own question is still waiting. */
  ghost predicate HasStarted(view: seq<Event>, asking: RunId) {
    Of(Waiting(Live(EventsAfter(view, Through(view)))), asking) == []
  }

  lemma {:induction false} VerbatimGrows(view: seq<Event>, mid: seq<Event>, asking: RunId)
    requires NoFolds(mid) && HasStarted(view, asking)
    ensures exists more :: Verbatim(view + mid, asking) == Verbatim(view, asking) + more
  {
    hide Standing, Live, EventsAfter, Emitted, Waiting, Of;
    var t := Through(view);
    StandingThrough(view, mid);
    assert Through(view + mid) == t;
    LiveAfterMore(view, mid, t);
    var late := Live(EventsAfter(view, t));
    var more := Live(EventsAfter(view + mid, t))[|late|..];
    assert Live(EventsAfter(view + mid, t)) == late + more;
    EmittedPrefix(late, more);
    var last := SaidAll(if asking == NO_RUN then [] else Of(Waiting(late + more), asking));
    assert Verbatim(view, asking) == Emitted(late);
    var rest := Emitted(late + more)[|Emitted(late)|..];
    assert Verbatim(view + mid, asking) == Verbatim(view, asking) + (rest + last);
  }

  /** What the run is shown is what it would have been shown, with the planned slice replaced. */
  ghost predicate CommutesMeanwhile(view: seq<Event>, mid: seq<Event>, asking: RunId, keep: int, fold: Fold, e: Event)
    requires PlanCompaction(Rebuild(view, asking), Through(view), keep).Some?
  {
    var was, now := Rebuild(view, asking), Rebuild(view + mid, asking);
    var plan := PlanCompaction(was, Through(view), keep).value;
    && plan.start < plan.cut < |was| && plan.cut <= |now| && now[..plan.cut] == was[..plan.cut]
    && Rebuild(view + mid + [e], asking) == now[..plan.start] + [SeedMessage(fold)] + now[plan.cut..]
  }

  /** The plan still fits the conversation when events have arrived since it was made. */
  lemma {:induction false} FoldCommutesMeanwhile(view: seq<Event>, mid: seq<Event>, asking: RunId, keep: int,
      fold: Fold, e: Event)
    requires Sorted(view) && Sorted(view + mid) && NoFolds(mid) && HasStarted(view, asking)
    requires Ranged(Standing(view)) && Records(view, asking, keep, fold, e)
    requires Increasing(Group(Verbatim(view + mid, asking)))
    ensures CommutesMeanwhile(view, mid, asking, keep, fold, e)
  {
    hide Group, PlanCompaction, Verbatim, Cut, Head, Standing, Through, Separates, ItemsAfter, Rebuild, Ranged,
        Increasing, HasStarted, Sorted;
    var ms := Rebuild(view, asking);
    var plan := PlanCompaction(ms, Through(view), keep).value;
    var n, items, all := |Standing(view)|, Verbatim(view, asking), Verbatim(view + mid, asking);
    StandingThrough(view, mid);
    RebuiltAfterFold(view, asking, keep, fold, e);
    PlanInside(ms, Through(view), keep);
    SameFolds(view, view + mid, e, fold, plan.start);
    VerbatimAfterFold(view + mid, e, asking);
    VerbatimGrows(view, mid, asking);
    var more :| all == items + more;
    GroupedPart(view, asking, plan.cut);
    ClosedMessagesStay(items, more, plan.cut - n);
    VerbatimOrdered(view + mid, asking);
    SamePart(view, view + mid, asking, plan.cut);
    IncreasingSeparates(all, plan.cut - n);
    CutCommutesIff(all, plan.cut - n, plan.through);
    RebuiltParts(view + mid, e, asking, fold, plan.start, ItemsAfter(all, plan.through));
    SeedsCut(view, asking, plan.start);
    SeedsCut(view + mid, asking, plan.start);
  }

  /** What other runs can append while one run holds the session: questions, the record that they wait, and taking
      a question back. It places nothing and leaves the questions of the run at work alone. */
  ghost predicate Bystands(e: Event, asking: RunId) {
    && e.run != asking && !e.payload.ConversationCompacted?
    && Own(e) == [] && (Started(e) ==> Ended(e))
  }

  lemma {:induction false} OneBystander(es: seq<Event>, e: Event, asking: RunId)
    requires Bystands(e, asking)
    ensures Placed(es + [e], asking) == Placed(es, asking)
  {
    hide Emitted, Waiting, Of, Without, Own;
    var held := Waiting(es);
    OneMore(es, e);
    assert SaidAll([]) == [];
    assert Arrivals(held, e) == [];
    NothingAdded(Emitted(es));
    var kept := if Ended(e) || Started(e) then Without(held, e.run) else held;
    OfWithoutOther(held, e.run, asking);
    if IsQuestion(e) {
      OneHeld(Asked(e), asking, 0);
      OfConcat(kept, [Asked(e)], asking);
      NothingAdded(Of(kept, asking));
    }
  }

  lemma {:induction false} OneBystanderLater(view: seq<Event>, e: Event, t: Seq, asking: RunId)
    requires Bystands(e, asking)
    ensures Placed(Live(EventsAfter(view + [e], t)), asking) == Placed(Live(EventsAfter(view, t)), asking)
  {
    hide Live, EventsAfter, Placed, Bystands;
    var late := EventsAfter(view, t);
    AfterMore(view, e, t);
    if t < e.seqNo {
      LiveMore(late, e);
      NoFold(e, asking);
      OneBystander(Live(late), e, asking);
    } else {
      NothingAdded(late);
    }
  }

  lemma {:induction false} BystandersLater(view: seq<Event>, mid: seq<Event>, t: Seq, asking: RunId)
    requires forall e :: e in mid ==> Bystands(e, asking)
    ensures Placed(Live(EventsAfter(view + mid, t)), asking) == Placed(Live(EventsAfter(view, t)), asking)
  {
    hide Live, EventsAfter, Placed, Bystands;
    if mid == [] {
      assert view + mid == view;
    } else {
      var init, e := mid[..|mid| - 1], mid[|mid| - 1];
      assert e in mid && forall x :: x in init ==> x in mid;
      BystandersLater(view, init, t, asking);
      assert view + mid == (view + init) + [e];
      OneBystanderLater(view + init, e, t, asking);
    }
  }

  /** Bystanders change nothing for the run at work, whether or not its own question is still waiting. */
  lemma {:induction false} BystandersUnseen(view: seq<Event>, mid: seq<Event>, asking: RunId)
    requires forall e :: e in mid ==> Bystands(e, asking)
    ensures Standing(view + mid) == Standing(view) && Through(view + mid) == Through(view)
    ensures Verbatim(view + mid, asking) == Verbatim(view, asking)
              && Rebuild(view + mid, asking) == Rebuild(view, asking)
  {
    StandingThrough(view, mid);
    hide Standing, Live, EventsAfter, Placed, Group;
    BystandersLater(view, mid, Through(view), asking);
  }

  lemma {:induction false} NoFold(e: Event, asking: RunId)
    requires Bystands(e, asking)
    ensures !e.payload.ConversationCompacted?
  {
  }

  /** A fold planned before bystanders came and recorded after them commutes exactly when it would have without them:
      on a run's first turn as on any other. */
  lemma {:induction false} FoldCommutesAmongBystandersIff(view: seq<Event>, mid: seq<Event>, asking: RunId, keep: int,
                                                          fold: Fold, e: Event)
    requires Sorted(view + mid) && (forall x :: x in mid ==> Bystands(x, asking))
    requires Ranged(Standing(view)) && Records(view, asking, keep, fold, e)
    ensures CutsTheLog(view, asking, keep) <==> CommutesMeanwhile(view, mid, asking, keep, fold, e)
  {
    hide Group, PlanCompaction, Verbatim, Standing, Through, Rebuild, Ranged, Bystands, Separates, Sorted;
    BystandersUnseen(view, mid, asking);
    FoldCommutesIff(view + mid, asking, keep, fold, e);
    PlanInside(Rebuild(view, asking), Through(view), keep);
  }

  /** So it does whenever the messages of the run at work end later and later. */
  lemma {:induction false} FoldCommutesAmongBystanders(view: seq<Event>, mid: seq<Event>, asking: RunId, keep: int,
                                                       fold: Fold, e: Event)
    requires Sorted(view + mid) && (forall x :: x in mid ==> Bystands(x, asking))
    requires Ranged(Standing(view)) && Records(view, asking, keep, fold, e)
    requires Increasing(Group(Verbatim(view, asking)))
    ensures CommutesMeanwhile(view, mid, asking, keep, fold, e)
  {
    hide Group, PlanCompaction, Verbatim, Standing, Through, Rebuild, Ranged, Bystands, Increasing, Sorted;
    BystandersUnseen(view, mid, asking);
    FoldCommutes(view + mid, asking, keep, fold, e);
    PlanInside(Rebuild(view, asking), Through(view), keep);
  }

  // ---- whatever happened in the meantime -------------------------------------------------

  /** What is shown in full is what the log places past what the folds reach. */
  lemma {:induction false} VerbatimIsLate(view: seq<Event>, asking: RunId)
    requires Sorted(view)
    ensures Verbatim(view, asking) == ItemsAfter(Placed(Live(view), asking), Through(view))
  {
    hide Live, EventsAfter, Placed, ItemsAfter, Through, Sorted;
    LiveAfter(view, Through(view));
    LiveSorted(view);
    PlacedAfter(Live(view), asking, Through(view));
  }

  lemma {:induction false} ItemsAfterIff(items: seq<Item>, t: Seq, x: Item)
    ensures x in ItemsAfter(items, t) <==> x in items && t < x.at
  {
    if items != [] {
      ItemsAfterIff(items[..|items| - 1], t, x);
      assert items == items[..|items| - 1] + [items[|items| - 1]];
    }
  }

  /** Recording a fold, whoever planned it and whenever, unseats the folds that do not begin before it and shows what
      the log places past its end. */
  lemma {:induction false} AnyRecordLeaves(now: seq<Event>, asking: RunId, fold: Fold, e: Event)
    requires Sorted(now + [e]) && e.payload == ConversationCompacted(fold)
    ensures var kept := StartingBefore(Standing(now), fold.from);
            && Standing(now + [e]) == kept + [fold] && Through(now + [e]) == fold.through
            && Verbatim(now + [e], asking) == ItemsAfter(Placed(Live(now), asking), fold.through)
            && Rebuild(now + [e], asking)
               == Seeds(kept) + [SeedMessage(fold)] + Group(ItemsAfter(Placed(Live(now), asking), fold.through))
  {
    hide Verbatim, Live, Placed, ItemsAfter, Group, Sorted;
    var kept := StartingBefore(Standing(now), fold.from);
    Compaction.StandingMore(now, e);
    VerbatimIsLate(now + [e], asking);
    LiveMore(now, e);
    NothingAdded(Live(now));
    assert Seeds(kept + [fold]) == Seeds(kept) + [SeedMessage(fold)];
  }

  lemma {:induction false} ItemsAfterTwice(items: seq<Item>, t: Seq, u: Seq)
    requires t <= u
    ensures ItemsAfter(ItemsAfter(items, t), u) == ItemsAfter(items, u)
  {
    if items != [] {
      var init, x := items[..|items| - 1], items[|items| - 1];
      ItemsAfterTwice(init, t, u);
      var kept := ItemsAfter(init, t);
      assert (kept + [x])[..|kept|] == kept;
    }
  }

  /** A fold that goes on from what the folds reach, whatever happened since it was planned, replaces the slice of
      the conversation up to a message exactly when its end is between that message and the next. */
  lemma {:induction false} AnyFoldCommutesIff(now: seq<Event>, asking: RunId, fold: Fold, e: Event, cut: nat)
    requires Sorted(now + [e]) && e.payload == ConversationCompacted(fold) && Through(now) <= fold.through
    requires 0 < cut <= |Group(Verbatim(now, asking))| && fold.through == Group(Verbatim(now, asking))[cut - 1].lastSeq
    ensures var ms, n, p := Rebuild(now, asking), |Standing(now)|, |StartingBefore(Standing(now), fold.from)|;
            && p <= n <= n + cut <= |ms|
            && (Rebuild(now + [e], asking) == ms[..p] + [SeedMessage(fold)] + ms[n + cut..]
                <==> Separates(Verbatim(now, asking), cut, fold.through))
  {
    hide Verbatim, Live, Placed, ItemsAfter, Group, Separates, Standing, Through;
    var ms, n, p := Rebuild(now, asking), |Standing(now)|, |StartingBefore(Standing(now), fold.from)|;
    assert Sorted(now) by { SortedPrefix(now + [e], |now|); assert (now + [e])[..|now|] == now; }
    AnyRecordLeaves(now, asking, fold, e);
    VerbatimIsLate(now, asking);
    ItemsAfterTwice(Placed(Live(now), asking), Through(now), fold.through);
    VerbatimOrdered(now, asking);
    CutCommutesIff(Verbatim(now, asking), cut, fold.through);
    StandingStartsIncrease(now);
    KeptIsPrefix(Standing(now), fold.from);
    GroupedPart(now, asking, n + cut);
    SeedsCut(now, asking, p);
    SameTail(ms[..p] + [SeedMessage(fold)], Group(ItemsAfter(Verbatim(now, asking), fold.through)), ms[n + cut..]);
  }

  lemma {:induction false} SeedsCut(view: seq<Event>, asking: RunId, start: nat)
    requires start <= |Standing(view)|
    ensures start <= |Rebuild(view, asking)| && Rebuild(view, asking)[..start] == Seeds(Standing(view)[..start])
  {
    hide Group, Verbatim, Standing;
  }

  lemma {:induction false} SameFolds(view: seq<Event>, now: seq<Event>, e: Event, fold: Fold, start: nat)
    requires Standing(now) == Standing(view) && start <= |Standing(view)|
    requires Standing(view + [e]) == Standing(view)[..start] + [fold]
    ensures Standing(now + [e]) == Standing(now)[..start] + [fold]
    ensures Through(now) == Through(view) && Through(now + [e]) == fold.through
  {
    assert (now + [e])[..|now|] == now && (view + [e])[..|view|] == view;
  }

  lemma {:induction false} SamePart(view: seq<Event>, now: seq<Event>, asking: RunId, cut: nat)
    requires Standing(now) == Standing(view) && |Standing(view)| < cut <= |Rebuild(view, asking)|
    requires var k := cut - |Standing(view)|;
             && k < |Group(Verbatim(now, asking))| && k < |Group(Verbatim(view, asking))|
             && Group(Verbatim(now, asking))[..k] == Group(Verbatim(view, asking))[..k]
    ensures cut <= |Rebuild(now, asking)| && Rebuild(now, asking)[..cut] == Rebuild(view, asking)[..cut]
    ensures var k, g := cut - |Standing(view)|, Group(Verbatim(now, asking));
            && g[k - 1].lastSeq == Rebuild(view, asking)[cut - 1].lastSeq
            && Rebuild(now, asking)[cut..] == g[k..]
  {
    hide Group, Verbatim, Standing;
    var k, g, h := cut - |Standing(view)|, Group(Verbatim(now, asking)), Group(Verbatim(view, asking));
    assert g[k - 1] == g[..k][k - 1] && h[k - 1] == h[..k][k - 1];
    assert Rebuild(now, asking)[..cut] == Seeds(Standing(view)) + g[..k];
    assert Rebuild(view, asking)[..cut] == Seeds(Standing(view)) + h[..k];
  }

  // ---- questions that wait --------------------------------------------------------------

  lemma {:induction false} AmongTheSaid(held: seq<Held>, run: RunId, h: Held)
    requires h in held && h.run == run
    ensures SaidBy(h) in SaidAll(Of(held, run))
  {
    WithoutKeeps(held, run, h);
    var k :| 0 <= k < |Of(held, run)| && Of(held, run)[k] == h;
    assert SaidAll(Of(held, run))[k] == SaidBy(h);
  }

  /** `h` was asked and its run has done nothing since. */
  ghost predicate Unanswered(view: seq<Event>, h: Held) {
    h.run != NO_RUN && h in Waiting(Live(view))
  }

  /** Nothing here settles what becomes of the run's questions. */
  ghost predicate LeavesAlone(es: seq<Event>, run: RunId) {
    forall e :: e in es ==> !(Started(e) && e.run == run)
  }

  lemma {:induction false} HeldIff(held: seq<Held>, t: Seq, h: Held)
    ensures h in HeldAfter(held, t) <==> h in held && t < h.at
  {
    if held != [] {
      HeldIff(held[..|held| - 1], t, h);
      assert held == held[..|held| - 1] + [held[|held| - 1]];
    }
  }

  lemma {:induction false} StaysUnanswered(view: seq<Event>, more: seq<Event>, h: Held)
    requires Unanswered(view, h) && LeavesAlone(more, h.run)
    ensures Unanswered(view + more, h)
  {
    hide Live, Waiting;
    if more == [] {
      assert view + more == view;
    } else {
      var init, e := more[..|more| - 1], more[|more| - 1];
      assert e in more && forall x :: x in init ==> x in more;
      StaysUnanswered(view, init, h);
      assert view + more == (view + init) + [e];
      LiveMore(view + init, e);
      if e.payload.ConversationCompacted? {
        NothingAdded(Live(view + init));
      } else {
        OneMore(Live(view + init), e);
        StillWaitingIff(Waiting(Live(view + init)), e, h);
      }
    }
  }

  /** Whatever came since, a question whose run has done nothing is shown to that run exactly when it was asked
      after the point the folds now reach. */
  lemma {:induction false} ShownWhileUnansweredIff(view: seq<Event>, h: Held)
    requires Sorted(view) && Unanswered(view, h)
    ensures SaidMessage(h.content, h.trust, h.at) in Group(Verbatim(view, h.run)) <==> Through(view) < h.at
  {
    hide Group, Through, Standing, Live, EventsAfter, Waiting, Emitted, HeldAfter;
    var t := Through(view);
    LiveAfter(view, t);
    LiveSorted(view);
    ReplayAfter(Live(view), t);
    HeldIff(Waiting(Live(view)), t, h);
    if t < h.at {
      AmongTheSaid(Waiting(Live(EventsAfter(view, t))), h.run, h);
      assert SaidBy(h) in Verbatim(view, h.run);
      SaidIn(Verbatim(view, h.run), h);
    } else {
      NeverShownAgain(view, h.run, h.at);
    }
  }

  /** For as long as its run does nothing, an unanswered question is shown to it exactly until a fold reaches the
      question, however many events and folds come. */
  lemma {:induction false} WaitingSurvivesIff(view: seq<Event>, more: seq<Event>, h: Held)
    requires Sorted(view + more) && Unanswered(view, h) && LeavesAlone(more, h.run)
    ensures SaidMessage(h.content, h.trust, h.at) in Group(Verbatim(view + more, h.run))
       <==> Through(view + more) < h.at
  {
    hide Group, Verbatim, Through, Unanswered;
    StaysUnanswered(view, more, h);
    ShownWhileUnansweredIff(view + more, h);
  }

  /** What the folds have reached is shown to nobody any more, not even when its run starts. */
  lemma {:induction false} NeverShownAgain(view: seq<Event>, asking: RunId, at: Seq)
    requires Sorted(view) && at <= Through(view)
    ensures forall m :: m in Group(Verbatim(view, asking)) ==> at < m.lastSeq
    ensures forall m :: m in Rebuild(view, asking) && !m.fold ==> at < m.lastSeq
  {
    hide Group, Verbatim, Through, Standing;
    var items := Verbatim(view, asking);
    Retention.ReplayedIsLate(view, asking);
    LastSeqIsAnItem(items);
    forall m | m in Group(items) ensures at < m.lastSeq {
      var k :| 0 <= k < |items| && items[k].at == m.lastSeq;
      assert items[k] in items;
    }
    forall m | m in Rebuild(view, asking) && !m.fold ensures at < m.lastSeq {
      assert m in Group(items);
    }
  }

  lemma {:induction false} SaidIn(items: seq<Item>, h: Held)
    requires SaidBy(h) in items
    ensures SaidMessage(h.content, h.trust, h.at) in Group(items)
  {
    hide Group;
    var k :| 0 <= k < |items| && items[k] == SaidBy(h);
    SaidAppears(items, k);
  }

  // ---- when messages end later and later ---------------------------------------------------

  ghost predicate StrictlyOrdered(items: seq<Item>) {
    forall i, j :: 0 <= i < j < |items| ==> items[i].at < items[j].at
  }

  /** When no question is placed behind something later than itself, messages end in log order. */
  lemma {:induction false} OrderlyItemsEndInOrder(items: seq<Item>)
    requires StrictlyOrdered(items)
    ensures Increasing(Group(items))
  {
    if items != [] {
      var init, x := items[..|items| - 1], items[|items| - 1];
      OrderlyItemsEndInOrder(init);
      LastSeqIsAnItem(init);
      forall m | m in Group(init) ensures m.lastSeq < x.at {
        var k :| 0 <= k < |init| && init[k].at == m.lastSeq;
        assert items[k] == init[k];
      }
      FeedsInOrder(Feeds(EMPTY, init), x);
    }
  }

  lemma {:induction false} FeedsInOrder(d: Draft, x: Item)
    requires Increasing(Finish(d)) && forall m :: m in Finish(d) ==> m.lastSeq < x.at
    ensures Increasing(Finish(Feed(d, x)))
  {
    var was, now := Finish(d), Finish(Feed(d, x));
    forall i, j | 0 <= i < j < |now| ensures now[i].lastSeq < now[j].lastSeq {
      assert i < |was| && now[i] == was[i] && was[i] in was;
      assert now[j].lastSeq == x.at || (j < |was| && now[j] == was[j]);
    }
  }
}
