/** Where each event of the log lands in the conversation.

    Everything lands where the log has it, except a question: it is held until
    its run does something and placed there, or dropped when the run ends
    without having started.
  */
module Placement {
  import opened Domain
  import opened Grouping

  datatype Held = Held(run: RunId, content: seq<Block>, trust: Trust, at: Seq)

  /** An event that means its run is doing something. The queued transition is the record of a run waiting. */
  predicate Started(e: Event) {
    && e.run != NO_RUN
    && !e.payload.UserMessageAdded?
    && (e.payload.RunStateChanged? ==> !e.payload.status.Queued?)
  }

  predicate Ended(e: Event) {
    e.run != NO_RUN && e.payload.RunStateChanged? && IsTerminal(e.payload.status)
  }

  /** A message that waits for its run. */
  predicate IsQuestion(e: Event) {
    e.payload.UserMessageAdded? && e.run != NO_RUN
  }

  function Asked(e: Event): Held
    requires e.payload.UserMessageAdded?
  {
    Held(e.run, e.payload.content, e.payload.trust, e.seqNo)
  }

  function Of(held: seq<Held>, run: RunId): seq<Held> {
    if held == [] then []
    else
      var kept := Of(held[..|held| - 1], run);
      if held[|held| - 1].run == run then kept + [held[|held| - 1]] else kept
  }

  function Without(held: seq<Held>, run: RunId): seq<Held> {
    if held == [] then []
    else
      var kept := Without(held[..|held| - 1], run);
      if held[|held| - 1].run != run then kept + [held[|held| - 1]] else kept
  }

  function HeldAfter(held: seq<Held>, t: Seq): seq<Held> {
    if held == [] then []
    else
      var kept := HeldAfter(held[..|held| - 1], t);
      if t < held[|held| - 1].at then kept + [held[|held| - 1]] else kept
  }

  function SaidBy(h: Held): Item {
    Said(h.content, h.trust, h.at)
  }

  function SaidAll(held: seq<Held>): (r: seq<Item>)
    ensures |r| == |held|
    ensures forall k :: 0 <= k < |r| ==> r[k] == SaidBy(held[k])
  {
    seq(|held|, k requires 0 <= k < |held| => SaidBy(held[k]))
  }

  /** Questions still waiting after an event. */
  function StillWaiting(held: seq<Held>, e: Event): seq<Held> {
    var kept := if Ended(e) || Started(e) then Without(held, e.run) else held;
    if IsQuestion(e) then kept + [Asked(e)] else kept
  }

  /** Questions an event lets in. */
  function Released(held: seq<Held>, e: Event): seq<Held> {
    if !Ended(e) && Started(e) then Of(held, e.run) else []
  }

  /** What an event contributes itself. */
  function Own(e: Event): seq<Item> {
    match e.payload
    case UserMessageAdded(content, trust) => if e.run == NO_RUN then [Said(content, trust, e.seqNo)] else []
    case AssistantTextDelta(text) => [Reply(text, e.seqNo)]
    case ToolCallRequested(id, name, args) => [Call(ToolUse(id, name, args), e.seqNo)]
    case ToolCallCompleted(id, tool, output, isError) => [Result(ToolResult(id, tool, output, isError), e.seqNo)]
    case AssistantMessageCompleted => [Done(e.seqNo)]
    case _ => []
  }

  function Waiting(es: seq<Event>): seq<Held> {
    if es == [] then [] else StillWaiting(Waiting(es[..|es| - 1]), es[|es| - 1])
  }

  /** What an event places: the questions it lets in, then what it says itself. */
  function Arrivals(held: seq<Held>, e: Event): seq<Item> {
    SaidAll(Released(held, e)) + Own(e)
  }

  function Emitted(es: seq<Event>): seq<Item> {
    if es == [] then []
    else Emitted(es[..|es| - 1]) + Arrivals(Waiting(es[..|es| - 1]), es[|es| - 1])
  }

  /** The items of a conversation, for the run that is asking for it. */
  function Placed(es: seq<Event>, asking: RunId): seq<Item> {
    Emitted(es) + SaidAll(if asking == NO_RUN then [] else Of(Waiting(es), asking))
  }

  // ---- positions ------------------------------------------------------------

  lemma {:induction false} AllFromHeld(held: seq<Held>, run: RunId)
    ensures forall h :: h in Of(held, run) ==> h in held && h.run == run
    ensures forall h :: h in Without(held, run) ==> h in held && h.run != run
  {
    forall h: Held ensures h in Of(held, run) <==> h in held && h.run == run {
      WithoutKeeps(held, run, h);
    }
    forall h: Held ensures h in Without(held, run) <==> h in held && h.run != run {
      WithoutKeeps(held, run, h);
    }
  }

  lemma {:induction false} ArrivalsFromThePast(held: seq<Held>, e: Event)
    requires forall h :: h in held ==> h.at <= e.seqNo
    ensures forall x :: x in Arrivals(held, e) ==> x.at <= e.seqNo
    ensures forall h :: h in StillWaiting(held, e) ==> h.at <= e.seqNo
  {
    var said := SaidAll(Released(held, e));
    AllFromHeld(held, e.run);
    forall x | x in said ensures x.at <= e.seqNo {
      var k :| 0 <= k < |said| && said[k] == x;
      assert Released(held, e)[k] in Released(held, e);
    }
  }

  /** Nothing placed or waiting is newer than the log. */
  lemma {:induction false} NothingFromTheFuture(es: seq<Event>, t: Seq)
    requires Sorted(es)
    requires es != [] ==> es[|es| - 1].seqNo <= t
    ensures forall x :: x in Emitted(es) ==> x.at <= t
    ensures forall h :: h in Waiting(es) ==> h.at <= t
  {
    if es != [] {
      var init, e := es[..|es| - 1], es[|es| - 1];
      SortedPrefix(es, |es| - 1);
      NothingFromTheFuture(init, e.seqNo);
      ArrivalsFromThePast(Waiting(init), e);
    }
  }

  lemma {:induction false} OrderedExtends(items: seq<Item>, held: seq<Held>, e: Event)
    requires Ordered(items)
    requires forall x :: x in items ==> x.at < e.seqNo
    requires forall h :: h in held ==> h.at < e.seqNo
    ensures Ordered(items + Arrivals(held, e))
  {
    var said := SaidAll(Released(held, e));
    var all := items + Arrivals(held, e);
    AllFromHeld(held, e.run);
    forall i, j | 0 <= i < j < |all| && !all[j].Said? ensures all[i].at < all[j].at {
      if j >= |items| {
        assert all[j] == (said + Own(e))[j - |items|];
        assert j >= |items| + |said|;
        if i < |items| {
          assert all[i] in items;
        } else {
          assert Released(held, e)[i - |items|] in Released(held, e);
        }
      }
    }
  }

  lemma {:induction false} EmittedOrdered(es: seq<Event>)
    requires Sorted(es)
    ensures Ordered(Emitted(es))
  {
    if es != [] {
      var init, e := es[..|es| - 1], es[|es| - 1];
      SortedPrefix(es, |es| - 1);
      EmittedOrdered(init);
      NothingFromTheFuture(init, e.seqNo - 1);
      OrderedExtends(Emitted(init), Waiting(init), e);
    }
  }

  lemma {:induction false} PlacedOrdered(es: seq<Event>, asking: RunId)
    requires Sorted(es)
    ensures Ordered(Placed(es, asking))
  {
    EmittedOrdered(es);
  }

  // ---- replaying from a later point -----------------------------------------

  lemma {:induction false} OfAfter(held: seq<Held>, run: RunId, t: Seq)
    ensures Of(HeldAfter(held, t), run) == HeldAfter(Of(held, run), t)
    ensures Without(HeldAfter(held, t), run) == HeldAfter(Without(held, run), t)
  {
    if held != [] {
      var init, h := held[..|held| - 1], held[|held| - 1];
      OfAfter(init, run, t);
      OfConcat(HeldAfter(init, t), if t < h.at then [h] else [], run);
      HeldAfterConcat(Of(init, run), if h.run == run then [h] else [], t);
      HeldAfterConcat(Without(init, run), if h.run != run then [h] else [], t);
      OneHeld(h, run, t);
    }
  }

  lemma {:induction false} OneHeld(h: Held, run: RunId, t: Seq)
    ensures Of([h], run) == if h.run == run then [h] else []
    ensures Without([h], run) == if h.run != run then [h] else []
    ensures HeldAfter([h], t) == if t < h.at then [h] else []
  {
    assert [h][..0] == [];
  }

  lemma {:induction false} OfConcat(a: seq<Held>, b: seq<Held>, run: RunId)
    ensures Of(a + b, run) == Of(a, run) + Of(b, run)
  {
    if b == [] {
      assert a + b == a;
    } else {
      assert (a + b)[..|a + b| - 1] == a + b[..|b| - 1];
      OfConcat(a, b[..|b| - 1], run);
    }
  }

  lemma {:induction false} WithoutConcat(a: seq<Held>, b: seq<Held>, run: RunId)
    ensures Without(a + b, run) == Without(a, run) + Without(b, run)
  {
    if b == [] {
      assert a + b == a;
    } else {
      assert (a + b)[..|a + b| - 1] == a + b[..|b| - 1];
      WithoutConcat(a, b[..|b| - 1], run);
    }
  }

  lemma {:induction false} HeldAfterConcat(a: seq<Held>, b: seq<Held>, t: Seq)
    ensures HeldAfter(a + b, t) == HeldAfter(a, t) + HeldAfter(b, t)
  {
    if b == [] {
      assert a + b == a;
    } else {
      assert (a + b)[..|a + b| - 1] == a + b[..|b| - 1];
      HeldAfterConcat(a, b[..|b| - 1], t);
    }
  }

  lemma {:induction false} SaidAllAfter(held: seq<Held>, t: Seq)
    ensures SaidAll(HeldAfter(held, t)) == ItemsAfter(SaidAll(held), t)
  {
    if held != [] {
      SaidAllAfter(held[..|held| - 1], t);
      assert SaidAll(held)[..|held| - 1] == SaidAll(held[..|held| - 1]);
      var h := held[|held| - 1];
      if t < h.at {
        var kept := HeldAfter(held[..|held| - 1], t);
        assert (kept + [h])[..|kept|] == kept;
      }
    }
  }

  lemma {:induction false} NoneHeldAfter(held: seq<Held>, t: Seq)
    requires forall h :: h in held ==> h.at <= t
    ensures HeldAfter(held, t) == []
  {
    if held != [] {
      assert held[|held| - 1] in held;
      NoneHeldAfter(held[..|held| - 1], t);
    }
  }

  lemma {:induction false} NoItemsAfter(items: seq<Item>, t: Seq)
    requires forall x :: x in items ==> x.at <= t
    ensures ItemsAfter(items, t) == []
  {
    if items != [] {
      assert items[|items| - 1] in items;
      NoItemsAfter(items[..|items| - 1], t);
    }
  }

  /** Replaying only the events after `t` places exactly what is after `t`. */
  lemma {:induction false} ReplayAfter(es: seq<Event>, t: Seq)
    requires Sorted(es)
    ensures Waiting(EventsAfter(es, t)) == HeldAfter(Waiting(es), t)
    ensures Emitted(EventsAfter(es, t)) == ItemsAfter(Emitted(es), t)
  {
    if es != [] {
      var init, e := es[..|es| - 1], es[|es| - 1];
      SortedPrefix(es, |es| - 1);
      if e.seqNo <= t {
        NothingAfter(es, t);
        NothingFromTheFuture(es, t);
        NoneHeldAfter(Waiting(es), t);
        NoItemsAfter(Emitted(es), t);
      } else {
        ReplayAfter(init, t);
        var late := EventsAfter(init, t);
        assert EventsAfter(es, t) == late + [e];
        assert (late + [e])[..|late|] == late;
        StillWaitingAfter(Waiting(init), e, t);
        ArrivalsAfter(Waiting(init), e, t);
        ItemsAfterConcat(Emitted(init), Arrivals(Waiting(init), e), t);
      }
    }
  }

  lemma {:induction false} StillWaitingAfter(held: seq<Held>, e: Event, t: Seq)
    requires t < e.seqNo
    ensures StillWaiting(HeldAfter(held, t), e) == HeldAfter(StillWaiting(held, e), t)
  {
    OfAfter(held, e.run, t);
    var kept := if Ended(e) || Started(e) then Without(held, e.run) else held;
    if IsQuestion(e) {
      HeldAfterConcat(kept, [Asked(e)], t);
      OneHeld(Asked(e), e.run, t);
    } else {
      assert kept + [] == kept;
    }
  }

  lemma {:induction false} OwnAfter(e: Event, t: Seq)
    requires t < e.seqNo
    ensures ItemsAfter(Own(e), t) == Own(e)
  {
    ItemsAllAfter(Own(e), t);
  }

  lemma {:induction false} ReleasedAfter(held: seq<Held>, e: Event, t: Seq)
    ensures SaidAll(Released(HeldAfter(held, t), e)) == ItemsAfter(SaidAll(Released(held, e)), t)
  {
    OfAfter(held, e.run, t);
    SaidAllAfter(Released(held, e), t);
  }

  lemma {:induction false} ArrivalsAfter(held: seq<Held>, e: Event, t: Seq)
    requires t < e.seqNo
    ensures Arrivals(HeldAfter(held, t), e) == ItemsAfter(Arrivals(held, e), t)
  {
    OwnAfter(e, t);
    ReleasedAfter(held, e, t);
    ItemsAfterConcat(SaidAll(Released(held, e)), Own(e), t);
  }

  lemma {:induction false} PlacedAfter(es: seq<Event>, asking: RunId, t: Seq)
    requires Sorted(es)
    ensures Placed(EventsAfter(es, t), asking) == ItemsAfter(Placed(es, asking), t)
  {
    ReplayAfter(es, t);
    OfAfter(Waiting(es), asking, t);
    var last := if asking == NO_RUN then [] else Of(Waiting(es), asking);
    SaidAllAfter(last, t);
    ItemsAfterConcat(Emitted(es), SaidAll(last), t);
  }

  // ---- where a question lands -------------------------------------------------

  /** The first event after `i` at which the run of the question at `i` does something. */
  ghost predicate SettledAt(es: seq<Event>, i: nat, j: nat) {
    && i < j < |es|
    && es[j].run == es[i].run && Started(es[j])
    && NotSettledBefore(es, i, j)
  }

  ghost predicate NotSettledBefore(es: seq<Event>, i: nat, j: nat)
    requires i < j <= |es|
  {
    forall k :: i < k < j ==> !(es[k].run == es[i].run && Started(es[k]))
  }

  /** `h` is the question asked at `i`, and its run has done nothing since. */
  ghost predicate WaitsFrom(es: seq<Event>, i: nat, h: Held) {
    i < |es| && IsQuestion(es[i]) && h == Asked(es[i]) && NotSettledBefore(es, i, |es|)
  }

  lemma {:induction false} NextWaits(init: seq<Event>, e: Event, i: nat, h: Held)
    ensures i < |init| ==>
              (WaitsFrom(init + [e], i, h) <==> WaitsFrom(init, i, h) && !(Started(e) && e.run == h.run))
    ensures WaitsFrom(init + [e], |init|, h) <==> IsQuestion(e) && h == Asked(e)
  {
    var es := init + [e];
    assert es[|init|] == e;
    if i < |init| {
      assert es[i] == init[i];
      if WaitsFrom(init, i, h) && !(Started(e) && e.run == h.run) {
        forall k | i < k < |es| ensures !(es[k].run == es[i].run && Started(es[k])) {
          if k < |init| {
            assert es[k] == init[k];
          }
        }
      }
      if WaitsFrom(es, i, h) {
        forall k | i < k < |init| ensures !(init[k].run == init[i].run && Started(init[k])) {
          assert es[k] == init[k];
        }
        assert !(es[|init|].run == es[i].run && Started(es[|init|]));
      }
    }
  }

  lemma {:induction false} StillWaitingIff(held: seq<Held>, e: Event, h: Held)
    ensures h in StillWaiting(held, e) <==>
            (h in held && !(Started(e) && e.run == h.run)) || (IsQuestion(e) && h == Asked(e))
  {
    WithoutKeeps(held, e.run, h);
    assert Ended(e) ==> Started(e);
  }

  /** A question waits exactly until its run does something. */
  lemma {:induction false} WaitingIffUnsettled(es: seq<Event>, h: Held)
    ensures h in Waiting(es) <==> exists i: nat :: WaitsFrom(es, i, h)
  {
    if es != [] {
      var init, e := es[..|es| - 1], es[|es| - 1];
      assert es == init + [e];
      WaitingIffUnsettled(init, h);
      StillWaitingIff(Waiting(init), e, h);
      NextWaits(init, e, |init|, h);
      if h in Waiting(es) {
        if h in Waiting(init) && !(Started(e) && e.run == h.run) {
          var i: nat :| WaitsFrom(init, i, h);
          NextWaits(init, e, i, h);
          assert WaitsFrom(es, i, h);
        } else {
          assert WaitsFrom(es, |init|, h);
        }
      }
      if i: nat :| WaitsFrom(es, i, h) {
        NextWaits(init, e, i, h);
      }
    }
  }

  lemma {:induction false} WithoutKeeps(held: seq<Held>, run: RunId, h: Held)
    ensures h in Without(held, run) <==> h in held && h.run != run
    ensures h in Of(held, run) <==> h in held && h.run == run
  {
    if held != [] {
      WithoutKeeps(held[..|held| - 1], run, h);
      assert held == held[..|held| - 1] + [held[|held| - 1]];
    }
  }

  /** How many questions of the same run were already waiting when this one came. */
  function Rank(es: seq<Event>, i: nat): nat
    requires i < |es|
  {
    |Of(Waiting(es[..i]), es[i].run)|
  }

  /** Until its run does something a question keeps its place among that run's questions. */
  lemma {:induction false} KeepsItsPlace(es: seq<Event>, i: nat, h: Held)
    requires WaitsFrom(es, i, h)
    ensures var mine := Of(Waiting(es), h.run);
            Rank(es, i) < |mine| && mine[Rank(es, i)] == h
    decreases |es|
  {
    var init, e := es[..|es| - 1], es[|es| - 1];
    assert es == init + [e];
    NextWaits(init, e, i, h);
    if i == |init| {
      JoinsTheLine(Waiting(init), e);
    } else {
      KeepsItsPlace(init, i, h);
      assert init[..i] == es[..i] && init[i] == es[i];
      LineMoves(Waiting(init), e, h.run);
    }
  }

  lemma {:induction false} JoinsTheLine(held: seq<Held>, e: Event)
    requires IsQuestion(e)
    ensures Of(StillWaiting(held, e), e.run) == Of(held, e.run) + [Asked(e)]
  {
    OneHeld(Asked(e), e.run, 0);
    OfConcat(held, [Asked(e)], e.run);
  }

  lemma {:induction false} LineMoves(held: seq<Held>, e: Event, run: RunId)
    requires !(Started(e) && e.run == run)
    ensures Of(held, run) <= Of(StillWaiting(held, e), run)
  {
    var kept := if Ended(e) || Started(e) then Without(held, e.run) else held;
    OfWithoutOther(held, e.run, run);
    OfConcat(kept, if IsQuestion(e) then [Asked(e)] else [], run);
  }

  lemma {:induction false} OfWithoutOther(held: seq<Held>, gone: RunId, run: RunId)
    ensures Of(Without(held, gone), run) == if gone == run then [] else Of(held, run)
  {
    if held != [] {
      var init, h := held[..|held| - 1], held[|held| - 1];
      OfWithoutOther(init, gone, run);
      OfConcat(Without(init, gone), if h.run != gone then [h] else [], run);
      OneHeld(h, run, 0);
    }
  }

  lemma {:induction false} OneMore(pre: seq<Event>, e: Event)
    ensures Emitted(pre + [e]) == Emitted(pre) + Arrivals(Waiting(pre), e)
    ensures Waiting(pre + [e]) == StillWaiting(Waiting(pre), e)
  {
    assert (pre + [e])[..|pre|] == pre;
  }

  lemma {:induction false} EmittedPrefix(a: seq<Event>, b: seq<Event>)
    ensures Emitted(a) <= Emitted(a + b)
  {
    if b == [] {
      assert a + b == a;
    } else {
      var init, e := b[..|b| - 1], b[|b| - 1];
      EmittedPrefix(a, init);
      assert (a + b)[..|a + b| - 1] == a + init;
    }
  }

  // ---- nothing is placed twice ------------------------------------------------

  /** How many items come from the event numbered `t`. */
  function Count(items: seq<Item>, t: Seq): nat {
    if items == [] then 0
    else Count(items[..|items| - 1], t) + (if items[|items| - 1].at == t then 1 else 0)
  }

  lemma {:induction false} CountConcat(a: seq<Item>, b: seq<Item>, t: Seq)
    ensures Count(a + b, t) == Count(a, t) + Count(b, t)
  {
    if b == [] {
      assert a + b == a;
    } else {
      assert (a + b)[..|a + b| - 1] == a + b[..|b| - 1];
      CountConcat(a, b[..|b| - 1], t);
    }
  }

  lemma {:induction false} CountNone(items: seq<Item>, t: Seq)
    ensures Count(items, t) == 0 <==> forall x :: x in items ==> x.at != t
  {
    if items != [] {
      CountNone(items[..|items| - 1], t);
      assert items == items[..|items| - 1] + [items[|items| - 1]];
    }
  }

  function HeldCount(held: seq<Held>, t: Seq): nat {
    if held == [] then 0
    else HeldCount(held[..|held| - 1], t) + (if held[|held| - 1].at == t then 1 else 0)
  }

  lemma {:induction false} CountSaid(held: seq<Held>, t: Seq)
    ensures Count(SaidAll(held), t) == HeldCount(held, t)
  {
    if held != [] {
      CountSaid(held[..|held| - 1], t);
      assert SaidAll(held)[..|held| - 1] == SaidAll(held[..|held| - 1]);
    }
  }

  lemma {:induction false} HeldCountMore(held: seq<Held>, h: Held, t: Seq)
    ensures HeldCount(held + [h], t) == HeldCount(held, t) + (if h.at == t then 1 else 0)
  {
    assert (held + [h])[..|held|] == held;
  }

  lemma {:induction false} HeldCountNone(held: seq<Held>, t: Seq)
    ensures HeldCount(held, t) == 0 <==> forall h :: h in held ==> h.at != t
  {
    if held != [] {
      HeldCountNone(held[..|held| - 1], t);
      assert held == held[..|held| - 1] + [held[|held| - 1]];
    }
  }

  lemma {:induction false} CountSplits(held: seq<Held>, run: RunId, t: Seq)
    ensures HeldCount(Of(held, run), t) + HeldCount(Without(held, run), t) == HeldCount(held, t)
  {
    if held != [] {
      var init, h := held[..|held| - 1], held[|held| - 1];
      CountSplits(init, run, t);
      HeldCountMore(Of(init, run), h, t);
      HeldCountMore(Without(init, run), h, t);
    }
  }

  /** How often what was logged at `t` is placed or waiting. */
  function Traces(es: seq<Event>, t: Seq): nat {
    Count(Emitted(es), t) + HeldCount(Waiting(es), t)
  }

  lemma {:induction false} CountOwn(e: Event, t: Seq)
    ensures Count(Own(e), t) <= (if e.seqNo == t && !IsQuestion(e) then 1 else 0)
  {
    if |Own(e)| == 1 {
      assert Own(e)[..0] == [];
    }
  }

  lemma {:induction false} ArrivalsCount(held: seq<Held>, e: Event, t: Seq)
    ensures Count(Arrivals(held, e), t)
         <= HeldCount(Released(held, e), t) + (if e.seqNo == t && !IsQuestion(e) then 1 else 0)
  {
    CountConcat(SaidAll(Released(held, e)), Own(e), t);
    CountSaid(Released(held, e), t);
    CountOwn(e, t);
  }

  lemma {:induction false} LineCount(held: seq<Held>, e: Event, t: Seq)
    ensures HeldCount(StillWaiting(held, e), t) + HeldCount(Released(held, e), t)
         <= HeldCount(held, t) + (if e.seqNo == t && IsQuestion(e) then 1 else 0)
  {
    CountSplits(held, e.run, t);
    assert Ended(e) ==> Started(e);
    var kept := if Ended(e) || Started(e) then Without(held, e.run) else held;
    if IsQuestion(e) {
      HeldCountMore(kept, Asked(e), t);
    } else {
      assert StillWaiting(held, e) == kept;
    }
  }

  lemma {:induction false} TracesStep(init: seq<Event>, e: Event, t: Seq)
    ensures Traces(init + [e], t) <= Traces(init, t) + (if e.seqNo == t then 1 else 0)
  {
    assert (init + [e])[..|init|] == init;
    CountConcat(Emitted(init), Arrivals(Waiting(init), e), t);
    ArrivalsCount(Waiting(init), e, t);
    LineCount(Waiting(init), e, t);
  }

  /** Whatever happens to the log afterwards, no event is placed more than once. */
  lemma {:induction false} TracedOnce(es: seq<Event>, n: nat, t: Seq)
    requires n <= |es|
    requires forall k :: n <= k < |es| ==> es[k].seqNo != t
    ensures Traces(es, t) <= Traces(es[..n], t)
  {
    if n == |es| {
      assert es[..n] == es;
    } else {
      var init, e := es[..|es| - 1], es[|es| - 1];
      assert es == init + [e] && init[..n] == es[..n];
      TracedOnce(init, n, t);
      TracesStep(init, e, t);
    }
  }

  lemma {:induction false} NoTraceBefore(es: seq<Event>, t: Seq)
    requires Sorted(es) && 0 < t
    requires es != [] ==> es[|es| - 1].seqNo < t
    ensures Traces(es, t) == 0
  {
    NothingFromTheFuture(es, t - 1);
    CountNone(Emitted(es), t);
    HeldCountNone(Waiting(es), t);
  }

  /** An event leaves at most one trace. */
  lemma {:induction false} TracedAtMostOnce(es: seq<Event>, i: nat)
    requires Sorted(es) && i < |es|
    ensures Traces(es, es[i].seqNo) <= 1
  {
    var t := es[i].seqNo;
    SortedPrefix(es, i);
    NoTraceBefore(es[..i], t);
    assert es[..i + 1] == es[..i] + [es[i]];
    TracesStep(es[..i], es[i], t);
    TracedOnce(es, i + 1, t);
  }

  lemma {:induction false} HeldCountAt(held: seq<Held>, k: nat)
    requires k < |held|
    ensures HeldCount(held, held[k].at) >= 1
  {
    assert held[k] in held;
    HeldCountNone(held, held[k].at);
  }

  // ---- the four fates of a question ---------------------------------------------

  function Messages(held: seq<Held>): (r: seq<Bounded>)
    ensures |r| == |held|
    ensures forall k :: 0 <= k < |r| ==> r[k] == SaidMessage(held[k].content, held[k].trust, held[k].at)
  {
    seq(|held|, k requires 0 <= k < |held| => SaidMessage(held[k].content, held[k].trust, held[k].at))
  }

  lemma {:induction false} NoItemsNoMessages()
    ensures Group([]) == []
  {
  }

  lemma {:induction false} GroupSaidAll(a: seq<Item>, held: seq<Held>)
    ensures Group(a + SaidAll(held)) == Group(a) + Messages(held)
  {
    hide Group;
    if held == [] {
      assert a + SaidAll(held) == a;
      assert Group(a) + Messages(held) == Group(a);
    } else {
      var init, h := held[..|held| - 1], held[|held| - 1];
      GroupSaidAll(a, init);
      var x := Said(h.content, h.trust, h.at);
      assert a + SaidAll(held) == (a + SaidAll(init)) + [x] + [];
      GroupAroundSaid(a + SaidAll(init), x, []);
      NoItemsNoMessages();
      assert Messages(held) == Messages(init) + [SaidMessage(h.content, h.trust, h.at)];
    }
  }

  lemma {:induction false} CountOne(x: Item)
    ensures Count([x], x.at) == 1
  {
    assert [x][..0] == [];
  }

  /** A question with nothing else of its number around it is one message, and the only one with that number. */
  lemma {:induction false} AloneInTheConversation(a: seq<Item>, ahead: seq<Held>, h: Held, b: seq<Item>)
    requires Count(a + SaidAll(ahead) + [Said(h.content, h.trust, h.at)] + b, h.at) <= 1
    ensures var ms := Group(a + SaidAll(ahead) + [Said(h.content, h.trust, h.at)] + b);
            var at := |Group(a)| + |ahead|;
            && at < |ms|
            && ms[..at] == Group(a) + Messages(ahead)
            && ms[at] == SaidMessage(h.content, h.trust, h.at)
            && forall k :: 0 <= k < |ms| && k != at ==> ms[k].lastSeq != h.at
  {
    hide Group, Count;
    var x, front := Said(h.content, h.trust, h.at), a + SaidAll(ahead);
    CountConcat(front + [x], b, h.at);
    CountConcat(front, [x], h.at);
    CountOne(x);
    NoneNumbered(front, h.at);
    NoneNumbered(b, h.at);
    GroupSaidAll(a, ahead);
    GroupAroundSaid(front, x, b);
    var ms, at := Group(front + [x] + b), |Group(front)|;
    forall k | 0 <= k < |ms| && k != at ensures ms[k].lastSeq != h.at {
      if k < at {
        assert ms[k] in Group(front);
      } else {
        assert ms[k] == Group(b)[k - at - 1] && ms[k] in Group(b);
      }
    }
  }

  lemma {:induction false} NoneNumbered(items: seq<Item>, t: Seq)
    requires Count(items, t) == 0
    ensures forall m :: m in Group(items) ==> m.lastSeq != t
  {
    CountNone(items, t);
    LastSeqIsAnItem(items);
    forall m | m in Group(items) ensures m.lastSeq != t {
      var k :| 0 <= k < |items| && items[k].at == m.lastSeq;
      assert items[k] in items;
    }
  }

  lemma {:induction false} CountPlaced(es: seq<Event>, asking: RunId, t: Seq)
    ensures Count(Placed(es, asking), t) <= Traces(es, t)
    ensures Count(Placed(es, asking), t) <= Count(Emitted(es), t) + HeldCount(Of(Waiting(es), asking), t)
  {
    var last := if asking == NO_RUN then [] else Of(Waiting(es), asking);
    CountConcat(Emitted(es), SaidAll(last), t);
    CountSaid(last, t);
    CountSplits(Waiting(es), asking, t);
  }

  lemma {:induction false} SaidAllAround(mine: seq<Held>, r: nat)
    requires r < |mine|
    ensures SaidAll(mine) == SaidAll(mine[..r]) + [Said(mine[r].content, mine[r].trust, mine[r].at)]
              + SaidAll(mine[r + 1..])
  {
  }

  /** Its run starts: the question appears once, right after everything placed before that. */
  lemma {:induction false} PlacedWhenItsRunStarts(es: seq<Event>, i: nat, j: nat, asking: RunId)
    requires Sorted(es) && i < |es| && IsQuestion(es[i]) && SettledAt(es, i, j) && !Ended(es[j])
    ensures IsAt(Group(Emitted(es[..j])), Group(Placed(es, asking)), Rank(es, i), Asked(es[i]))
  {
    hide Group, Placed, Emitted, Count, Waiting;
    WaitsUntil(es, i, j);
    PlacedOnce(es, i, asking);
    StartsAt(es, es[..j], es[j], es[j + 1..], asking, Rank(es, i), Asked(es[i]));
  }

  lemma {:induction false} StartsAt(es: seq<Event>, pre: seq<Event>, e: Event, post: seq<Event>, asking: RunId, r: nat,
      h: Held)
    requires es == pre + [e] + post && Started(e) && !Ended(e)
    requires r < |Of(Waiting(pre), e.run)| && h == Of(Waiting(pre), e.run)[r]
    requires Count(Placed(es, asking), h.at) <= 1
    ensures IsAt(Group(Emitted(pre)), Group(Placed(es, asking)), r, h)
  {
    hide Group, Placed, Emitted, Count, Waiting;
    LetIn(pre, e, post, asking, r, h);
  }

  lemma {:induction false} PlacedOnce(es: seq<Event>, i: nat, asking: RunId)
    requires Sorted(es) && i < |es|
    ensures Count(Placed(es, asking), es[i].seqNo) <= 1
  {
    CountPlaced(es, asking, es[i].seqNo);
    TracedAtMostOnce(es, i);
  }

  lemma {:induction false} WaitsUntil(es: seq<Event>, i: nat, j: nat)
    requires i < j <= |es| && IsQuestion(es[i]) && NotSettledBefore(es, i, j)
    ensures var mine := Of(Waiting(es[..j]), es[i].run);
            Rank(es, i) < |mine| && mine[Rank(es, i)] == Asked(es[i])
  {
    var pre := es[..j];
    assert pre[i] == es[i] && pre[..i] == es[..i];
    forall k | i < k < j ensures !(pre[k].run == pre[i].run && Started(pre[k])) {
      assert pre[k] == es[k];
    }
    assert WaitsFrom(pre, i, Asked(es[i]));
    KeepsItsPlace(pre, i, Asked(es[i]));
  }

  /** The r-th question that `e` lets in, in the conversation of the whole log. */
  lemma {:induction false} LetIn(pre: seq<Event>, e: Event, post: seq<Event>, asking: RunId, r: nat, h: Held)
    requires Started(e) && !Ended(e)
    requires r < |Of(Waiting(pre), e.run)| && h == Of(Waiting(pre), e.run)[r]
    requires Count(Placed(pre + [e] + post, asking), h.at) <= 1
    ensures IsAt(Group(Emitted(pre)), Group(Placed(pre + [e] + post, asking)), r, h)
  {
    hide *;
    PlacedInFront(pre, e, post, asking);
    var all, front := Placed(pre + [e] + post, asking), Emitted(pre) + SaidAll(Of(Waiting(pre), e.run));
    assert all == front + all[|front|..];
    Among(Emitted(pre), Of(Waiting(pre), e.run), all[|front|..], r, h);
  }

  lemma {:induction false} PlacedInFront(pre: seq<Event>, e: Event, post: seq<Event>, asking: RunId)
    requires Started(e) && !Ended(e)
    ensures Emitted(pre) + SaidAll(Of(Waiting(pre), e.run)) <= Placed(pre + [e] + post, asking)
  {
    hide Emitted, Waiting, Of, Own;
    OneMore(pre, e);
    EmittedPrefix(pre + [e], post);
    assert Emitted(pre + [e] + post) <= Placed(pre + [e] + post, asking);
    assert Emitted(pre) + SaidAll(Of(Waiting(pre), e.run)) <= Emitted(pre + [e]);
  }

  /** `h` is `r` places after what was there before, and nowhere else. */
  ghost predicate IsAt(before: seq<Bounded>, ms: seq<Bounded>, r: nat, h: Held) {
    var at := |before| + r;
    && at < |ms| && ms[..|before|] == before
    && ms[at] == SaidMessage(h.content, h.trust, h.at)
    && forall k :: 0 <= k < |ms| && k != at ==> ms[k].lastSeq != h.at
  }

  lemma {:induction false} Among(items: seq<Item>, mine: seq<Held>, tail: seq<Item>, r: nat, h: Held)
    requires r < |mine| && h == mine[r] && Count(items + SaidAll(mine) + tail, h.at) <= 1
    ensures IsAt(Group(items), Group(items + SaidAll(mine) + tail), r, h)
  {
    hide Group, Count;
    SaidAllAround(mine, r);
    Regroup(items, SaidAll(mine[..r]), Said(h.content, h.trust, h.at), SaidAll(mine[r + 1..]), tail);
    AloneInTheConversation(items, mine[..r], h, SaidAll(mine[r + 1..]) + tail);
  }

  lemma {:induction false} Regroup<T>(a: seq<T>, b: seq<T>, x: T, c: seq<T>, d: seq<T>)
    ensures (a + (b + [x] + c)) + d == a + b + [x] + (c + d)
  {
  }

  /** Its run ends without having started: the question is taken back and never appears. */
  lemma {:induction false} DroppedWhenItsRunEnds(es: seq<Event>, i: nat, j: nat, asking: RunId)
    requires Sorted(es) && i < |es| && IsQuestion(es[i]) && SettledAt(es, i, j) && Ended(es[j])
    ensures forall m :: m in Group(Placed(es, asking)) ==> m.lastSeq != es[i].seqNo
  {
    hide Group, Placed, Emitted, Count, Waiting, Of, Traces;
    var t := es[i].seqNo;
    WaitsUntil(es, i, j);
    NoTraceUpTo(es, i, j);
    TracedOnce(es, j + 1, t);
    CountPlaced(es, asking, t);
    NoneNumbered(Placed(es, asking), t);
  }

  lemma {:induction false} NoTraceUpTo(es: seq<Event>, i: nat, j: nat)
    requires Sorted(es) && i < j < |es| && Ended(es[j]) && es[j].run == es[i].run
    requires exists r :: 0 <= r < |Of(Waiting(es[..j]), es[i].run)|
                         && Of(Waiting(es[..j]), es[i].run)[r].at == es[i].seqNo
    ensures Traces(es[..j + 1], es[i].seqNo) == 0
  {
    var r :| 0 <= r < |Of(Waiting(es[..j]), es[i].run)| && Of(Waiting(es[..j]), es[i].run)[r].at == es[i].seqNo;
    SortedPrefix(es, j);
    assert es[..j][i] == es[i];
    TracedAtMostOnce(es[..j], i);
    assert es[..j + 1] == es[..j] + [es[j]];
    NoTraceOnceEnded(es[..j], es[j], r, es[i].seqNo);
  }

  lemma {:induction false} NoTraceOnceEnded(pre: seq<Event>, e: Event, r: nat, t: Seq)
    requires Ended(e) && Traces(pre, t) <= 1
    requires r < |Of(Waiting(pre), e.run)| && Of(Waiting(pre), e.run)[r].at == t
    ensures Traces(pre + [e], t) == 0
  {
    OneMore(pre, e);
    EndingDrops(Emitted(pre), Waiting(pre), e, r, t);
  }

  lemma {:induction false} EndingDrops(items: seq<Item>, held: seq<Held>, e: Event, r: nat, t: Seq)
    requires Ended(e) && Count(items, t) + HeldCount(held, t) <= 1
    requires r < |Of(held, e.run)| && Of(held, e.run)[r].at == t
    ensures Count(items + Arrivals(held, e), t) + HeldCount(StillWaiting(held, e), t) == 0
  {
    HeldCountAt(Of(held, e.run), r);
    CountSplits(held, e.run, t);
    assert items + Arrivals(held, e) == items;
  }

  // ---- the same, event by event ------------------------------------------------------

  /** Between `i` and `j` the run of `i` has asked more and been put in line, and nothing else. */
  ghost predicate InLine(es: seq<Event>, i: nat, j: nat)
    requires i < j <= |es|
  {
    forall k :: i < k < j && es[k].run == es[i].run ==>
      es[k].payload.UserMessageAdded? || es[k].payload == RunStateChanged(Queued)
  }

  /** A run that waited in line is completed, cancelled or failed: what it was asked is shown to nobody. */
  lemma {:induction false} TakenBack(es: seq<Event>, i: nat, j: nat, asking: RunId)
    requires Sorted(es) && i < j < |es| && es[i].payload.UserMessageAdded? && es[i].run == es[j].run != ""
    requires InLine(es, i, j)
    requires || es[j].payload == RunStateChanged(Completed)
             || es[j].payload == RunStateChanged(Cancelled)
             || es[j].payload == RunStateChanged(Failed)
    ensures forall m :: m in Group(Placed(es, asking)) ==> m.lastSeq != es[i].seqNo
  {
    hide Group, Placed;
    DroppedWhenItsRunEnds(es, i, j, asking);
  }

  /** Everything a run can record once its turn has come, but its end. */
  ghost predicate AtWork(p: Payload) {
    || p == RunStateChanged(Running) || p == RunStateChanged(Cancelling)
    || p == RunStateChanged(AwaitingApproval) || p == RunStateChanged(AwaitingInput)
    || p.AssistantTextDelta? || p.AssistantReasoningDelta? || p.AssistantMessageCompleted?
    || p.ToolCallRequested? || p.ToolCallCompleted? || p.ConversationCompacted? || p.Other?
  }

  /** A run that waited in line does anything but end: what it was asked is one message, directly after everything
      placed before that and what the run was asked before, and nowhere else. */
  lemma {:induction false} LetInByItsRun(es: seq<Event>, i: nat, j: nat, asking: RunId)
    requires Sorted(es) && i < j < |es| && es[i].payload.UserMessageAdded? && es[i].run == es[j].run != ""
    requires InLine(es, i, j) && AtWork(es[j].payload)
    ensures IsAt(Group(Emitted(es[..j])), Group(Placed(es, asking)), Rank(es, i), Asked(es[i]))
    ensures exists m :: m in Group(Placed(es, asking)) && m.lastSeq == es[i].seqNo
              && m.message == Message(User, es[i].payload.content) && m.trust == es[i].payload.trust
  {
    hide Group, Placed, Emitted, Rank;
    PlacedWhenItsRunStarts(es, i, j, asking);
    var ms, at := Group(Placed(es, asking)), |Group(Emitted(es[..j]))| + Rank(es, i);
    assert ms[at] in ms;
  }

  /** What is said outside any run waits for none: it is one message, directly after everything placed before it. */
  lemma {:induction false} SaidAtOnce(es: seq<Event>, j: nat, asking: RunId)
    requires Sorted(es) && j < |es| && es[j].payload.UserMessageAdded? && es[j].run == ""
    ensures var before, ms := Group(Emitted(es[..j])), Group(Placed(es, asking));
            && |before| < |ms| && ms[..|before|] == before
            && ms[|before|].message == Message(User, es[j].payload.content)
            && ms[|before|].trust == es[j].payload.trust && ms[|before|].lastSeq == es[j].seqNo
            && forall k :: 0 <= k < |ms| && k != |before| ==> ms[k].lastSeq != es[j].seqNo
  {
    hide Group, Count, Waiting, Emitted;
    var pre, e := es[..j], es[j];
    var items, x := Emitted(pre), Said(e.payload.content, e.payload.trust, e.seqNo);
    assert es == pre + [e] + es[j + 1..];
    OneMore(pre, e);
    EmittedPrefix(pre + [e], es[j + 1..]);
    var all := Placed(es, asking);
    assert Emitted(pre + [e]) == items + [x] <= all;
    var h := Held("", e.payload.content, e.payload.trust, e.seqNo);
    PlacedOnce(es, j, asking);
    var rest := all[|items| + 1..];
    assert all == items + SaidAll([]) + [x] + rest;
    AloneInTheConversation(items, [], h, rest);
    assert Group(items) + Messages([]) == Group(items);
  }

  /** Its run has done nothing yet and is the one asking: the question comes last,
      behind everything placed and followed only by later questions of the same run. */
  lemma {:induction false} PlacedLastForTheRunAsking(es: seq<Event>, i: nat)
    requires Sorted(es) && i < |es| && IsQuestion(es[i]) && NotSettledBefore(es, i, |es|)
    ensures IsAt(Group(Emitted(es)), Group(Placed(es, es[i].run)), Rank(es, i), Asked(es[i]))
    ensures Group(Placed(es, es[i].run)) == Group(Emitted(es)) + Messages(Of(Waiting(es), es[i].run))
  {
    assert es[..|es|] == es;
    WaitsUntil(es, i, |es|);
    PlacedOnce(es, i, es[i].run);
    GroupSaidAll(Emitted(es), Of(Waiting(es), es[i].run));
    assert Placed(es, es[i].run) + [] == Placed(es, es[i].run);
    Among(Emitted(es), Of(Waiting(es), es[i].run), [], Rank(es, i), Asked(es[i]));
  }

  /** Its run has done nothing yet and another run is asking: the question is not shown. */
  lemma {:induction false} NotShownToAnotherRun(es: seq<Event>, i: nat, asking: RunId)
    requires Sorted(es) && i < |es| && IsQuestion(es[i]) && NotSettledBefore(es, i, |es|) && asking != es[i].run
    ensures forall m :: m in Group(Placed(es, asking)) ==> m.lastSeq != es[i].seqNo
  {
    var t, run, held := es[i].seqNo, es[i].run, Waiting(es);
    assert es[..|es|] == es;
    WaitsUntil(es, i, |es|);
    TracedAtMostOnce(es, i);
    HeldCountAt(Of(held, run), Rank(es, i));
    CountSplits(held, run, t);
    OfWithoutOther(held, run, asking);
    CountSplits(Without(held, run), asking, t);
    CountPlaced(es, asking, t);
    NoneNumbered(Placed(es, asking), t);
  }

  // ---- nothing said or done is lost ------------------------------------------------

  /** Everything the assistant said, asked for and was told, in log order. */
  function Told(es: seq<Event>): Content {
    if es == [] then NOTHING else Plus(Told(es[..|es| - 1]), Telling(es[|es| - 1]))
  }

  ghost predicate SameButQuestions(a: Content, b: Content) {
    a.text == b.text && a.calls == b.calls && a.results == b.results
  }

  lemma {:induction false} QuestionsTellNothing(held: seq<Held>)
    ensures SameButQuestions(ItemsContent(SaidAll(held)), NOTHING)
  {
    if held != [] {
      QuestionsTellNothing(held[..|held| - 1]);
      assert SaidAll(held)[..|held| - 1] == SaidAll(held[..|held| - 1]);
    }
  }

  lemma {:induction false} OwnContent(e: Event)
    ensures |Own(e)| <= 1
    ensures ItemsContent(Own(e)) == if Own(e) == [] then NOTHING else ItemContent(Own(e)[0])
  {
    if |Own(e)| == 1 {
      assert Own(e)[..0] == [];
      assert Plus(NOTHING, ItemContent(Own(e)[0])) == ItemContent(Own(e)[0]);
    }
  }

  function Telling(e: Event): Content {
    match e.payload
    case AssistantTextDelta(text) => Content(text, [], [], [])
    case ToolCallRequested(id, name, args) => Content("", [ToolUse(id, name, args)], [], [])
    case ToolCallCompleted(id, tool, output, isError) => Content("", [], [ToolResult(id, tool, output, isError)], [])
    case _ => NOTHING
  }

  lemma {:induction false} OwnTells(e: Event)
    ensures SameButQuestions(ItemsContent(Own(e)), Telling(e))
  {
    hide ItemsContent;
    OwnContent(e);
  }

  lemma {:induction false} ArrivalsTell(held: seq<Held>, e: Event)
    ensures SameButQuestions(ItemsContent(Arrivals(held, e)), Telling(e))
  {
    hide ItemsContent, Own, Telling, SaidAll;
    QuestionsTellNothing(Released(held, e));
    ItemsContentConcat(SaidAll(Released(held, e)), Own(e));
    OwnTells(e);
  }

  lemma {:induction false} EmittedTells(es: seq<Event>)
    ensures SameButQuestions(ItemsContent(Emitted(es)), Told(es))
  {
    if es != [] {
      var init, e := es[..|es| - 1], es[|es| - 1];
      EmittedTells(init);
      ArrivalsTell(Waiting(init), e);
      ItemsContentConcat(Emitted(init), Arrivals(Waiting(init), e));
    }
  }

  /** The text, the calls and the results of a rebuilt conversation are those of the log, in order, each once. */
  lemma {:induction false} ReplayConserves(es: seq<Event>, asking: RunId)
    ensures SameButQuestions(ContentOf(Group(Placed(es, asking))), Told(es))
  {
    var last := if asking == NO_RUN then [] else Of(Waiting(es), asking);
    EmittedTells(es);
    QuestionsTellNothing(last);
    ItemsContentConcat(Emitted(es), SaidAll(last));
    GroupConserves(Placed(es, asking));
  }
}
