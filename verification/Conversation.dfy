/** The builder that replays a log into messages, field by field.

    Its ghost history says what it has been given; `Valid` says that its fields
    hold exactly what that history places, so every method that keeps `Valid`
    is tied to the definitions in Placement and Grouping.
  */
module Conversation {
  import opened Domain
  import opened Grouping
  import opened Placement
  import opened Folds

  class ConversationBuilder {
    const asking: RunId
    var held: seq<Held>
    var messages: seq<Bounded>
    var pendingText: string
    var pendingToolCalls: seq<Use>
    var pendingResults: seq<Outcome>
    var assistantSeq: Seq
    var resultsSeq: Seq

    ghost var folds: seq<Fold>
    ghost var seen: seq<Event>

    /** At most one of the two buffers holds anything. */
    ghost predicate Exclusive()
      reads this
    {
      (pendingText == "" && pendingToolCalls == []) || pendingResults == []
    }

    ghost function Gathering(): Open
      reads this
    {
      if pendingText != "" || pendingToolCalls != [] then Speaking(pendingText, pendingToolCalls, assistantSeq)
      else if pendingResults != [] then Observing(pendingResults, resultsSeq)
      else Closed
    }

    ghost function Drafted(): Draft
      reads this
    {
      Draft(messages, Gathering())
    }

    ghost predicate Valid()
      reads this
    {
      && Exclusive()
      && held == Waiting(seen)
      && Drafted() == Feeds(Draft(Seeds(folds), Closed), Emitted(seen))
    }

    constructor (asking: RunId)
      ensures Valid() && this.asking == asking && folds == [] && seen == []
    {
      this.asking := asking;
      held, messages, pendingText, pendingToolCalls, pendingResults := [], [], "", [], [];
      assistantSeq, resultsSeq := 0, 0;
      folds, seen := [], [];
    }

    method Seed(fold: Fold)
      requires Valid() && seen == []
      modifies `messages, `folds
      ensures Valid() && folds == old(folds) + [fold]
    {
      messages := messages + [SeedMessage(fold)];
      folds := folds + [fold];
      assert Seeds(folds) == Seeds(old(folds)) + [SeedMessage(fold)];
    }

    /** Closes the assistant turn, if one is open. */
    method FlushAssistant()
      requires Exclusive()
      modifies `messages, `pendingText, `pendingToolCalls
      ensures Exclusive()
      ensures Drafted() == if old(Gathering()).Speaking? then Draft(Finish(old(Drafted())), Closed) else old(Drafted())
    {
      if pendingText == "" && |pendingToolCalls| == 0 {
        return;
      }
      var content: seq<Block> := [];
      if pendingText != "" {
        content := content + [Text(pendingText)];
      }
      content := content + pendingToolCalls;
      assert content == (if pendingText != "" then [Text(pendingText)] else []) + pendingToolCalls;
      messages := messages + [Bounded(Message(Assistant, content), assistantSeq, Unstated, false, 0)];
      pendingText, pendingToolCalls := "", [];
    }

    /** Closes the tool results, if some are gathered. */
    method FlushResults()
      requires Exclusive()
      modifies `messages, `pendingResults
      ensures Exclusive()
      ensures Drafted() == if old(Gathering()).Observing? then Draft(Finish(old(Drafted())), Closed) else old(Drafted())
    {
      if |pendingResults| == 0 {
        return;
      }
      messages := messages + [Bounded(Message(Tool, pendingResults), resultsSeq, Unstated, false, 0)];
      pendingResults := [];
    }

    method Say(question: Held)
      requires Exclusive()
      modifies `messages, `pendingText, `pendingToolCalls, `pendingResults
      ensures Exclusive()
      ensures Drafted() == Feed(old(Drafted()), SaidBy(question))
    {
      FlushAssistant();
      FlushResults();
      messages := messages + [Bounded(Message(User, question.content), question.at, question.trust, false, 0)];
    }

    /** Forgets any question held for a run. */
    method Discard(run: RunId)
      modifies `held
      ensures held == Without(old(held), run)
    {
      var kept := [];
      for i := 0 to |held|
        invariant held == old(held) && kept == Without(held[..i], run)
      {
        assert held[..i + 1][..i] == held[..i];
        if held[i].run != run {
          kept := kept + [held[i]];
        }
      }
      assert held[..|held|] == held;
      held := kept;
    }

    /** Places the questions held for a run, in the order they came. */
    method Release(run: RunId)
      requires Exclusive()
      modifies `held, `messages, `pendingText, `pendingToolCalls, `pendingResults
      ensures Exclusive()
      ensures held == if run == NO_RUN then old(held) else Without(old(held), run)
      ensures Drafted() == if run == NO_RUN then old(Drafted()) else Feeds(old(Drafted()), SaidAll(Of(old(held), run)))
    {
      if run == NO_RUN || |held| == 0 {
        assert SaidAll([]) == [];
        return;
      }
      var kept := [];
      ghost var start := Drafted();
      assert SaidAll([]) == [];
      for i := 0 to |held|
        invariant held == old(held) && Exclusive()
        invariant kept == Without(held[..i], run)
        invariant Drafted() == Feeds(start, SaidAll(Of(held[..i], run)))
      {
        ghost var placed := Of(held[..i], run);
        assert held[..i + 1][..i] == held[..i];
        if held[i].run == run {
          Say(held[i]);
          assert SaidAll(placed + [held[i]]) == SaidAll(placed) + [SaidBy(held[i])];
        } else {
          kept := kept + [held[i]];
        }
      }
      assert held[..|held|] == held;
      held := kept;
    }

    method Apply(event: Event)
      requires Valid()
      modifies `held, `messages, `pendingText, `pendingToolCalls, `pendingResults, `assistantSeq, `resultsSeq, `seen
      ensures Valid() && seen == old(seen) + [event]
    {
      hide Feeds, Emitted, Waiting, Of, Without, Own, Released;
      ghost var before := Drafted();
      Settle(event);
      Take(event);
      seen := seen + [event];
      OneMore(old(seen), event);
      AppliedIs(Draft(Seeds(folds), Closed), old(seen), event);
    }

    /** Whether an event takes its run's questions back, lets them in, or leaves them waiting. */
    method Settle(event: Event)
      requires Exclusive()
      modifies `held, `messages, `pendingText, `pendingToolCalls, `pendingResults
      ensures Exclusive()
      ensures held == if Ended(event) || Started(event) then Without(old(held), event.run) else old(held)
      ensures Drafted() == Feeds(old(Drafted()), SaidAll(Released(old(held), event)))
    {
      hide Feeds, Of, Without;
      assert SaidAll([]) == [];
      FeedsNone(Drafted());
      if Ended(event) {
        Discard(event.run);
      } else if Started(event) {
        Release(event.run);
      }
    }

    /** What an event does besides settling its run's questions. */
    method Take(event: Event)
      requires Exclusive()
      modifies `held, `messages, `pendingText, `pendingToolCalls, `pendingResults, `assistantSeq, `resultsSeq
      ensures Exclusive()
      ensures held == if IsQuestion(event) then old(held) + [Asked(event)] else old(held)
      ensures Drafted() == Feeds(old(Drafted()), Own(event))
    {
      hide Feeds, Waiting, Emitted;
      ghost var before := Drafted();
      FeedsNone(before);
      if |Own(event)| == 1 {
        FeedsOne(before, Own(event)[0]);
        assert Own(event) == [Own(event)[0]];
      }
      match event.payload
      case UserMessageAdded(content, trust) =>
        var message := Held(event.run, content, trust, event.seqNo);
        if event.run == NO_RUN {
          Say(message);
          return;
        }
        held := held + [message];
      case AssistantTextDelta(text) =>
        FlushResults();
        assert |pendingText + text| == |pendingText| + |text|;
        assert "" + text == text;
        pendingText := pendingText + text;
        assistantSeq := event.seqNo;
      case ToolCallRequested(id, name, args) =>
        FlushResults();
        assert [] + [ToolUse(id, name, args)] == [ToolUse(id, name, args)];
        pendingToolCalls := pendingToolCalls + [ToolUse(id, name, args)];
        assistantSeq := event.seqNo;
      case ToolCallCompleted(id, tool, output, isError) =>
        FlushAssistant();
        assert [] + [ToolResult(id, tool, output, isError)] == [ToolResult(id, tool, output, isError)];
        pendingResults := pendingResults + [ToolResult(id, tool, output, isError)];
        resultsSeq := event.seqNo;
      case AssistantMessageCompleted =>
        assistantSeq := event.seqNo;
        FlushAssistant();
      case _ =>
    }

    /** The conversation: the folds, then the messages of everything placed for the run that asks. */
    method Finished() returns (conversation: seq<Bounded>)
      requires Valid()
      modifies `held, `messages, `pendingText, `pendingToolCalls, `pendingResults
      ensures conversation == Seeds(folds) + Group(Placed(seen, asking))
      ensures held == [] && !Gathering().Speaking? && !Gathering().Observing?
    {
      hide Feeds, Emitted, Waiting, Of, Without, Group;
      ghost var before := Drafted();
      ghost var last := if asking == NO_RUN then [] else Of(held, asking);
      FlushAssistant();
      FlushResults();
      assert Drafted() == Draft(Finish(before), Closed) by {
        assert before.messages + [] == before.messages;
      }
      assert SaidAll([]) == [];
      Release(asking);
      held := [];
      FeedsNone(Draft(Finish(before), Closed));
      conversation := messages;
      ConversationOf(before, Seeds(folds), seen, asking);
    }
  }

  lemma {:induction false} ConversationOf(d: Draft, seeds: seq<Bounded>, seen: seq<Event>, asking: RunId)
    requires d == Feeds(Draft(seeds, Closed), Emitted(seen))
    ensures var last := if asking == NO_RUN then [] else Of(Waiting(seen), asking);
            var closed := Feeds(Draft(Finish(d), Closed), SaidAll(last));
            closed.open.Closed? && closed.messages == seeds + Group(Placed(seen, asking))
  {
    hide Feeds, Emitted, Waiting, Of, Group, Finish;
    var last := if asking == NO_RUN then [] else Of(Waiting(seen), asking);
    FinishIsClosing(d, last);
    FeedsConcat(Draft(seeds, Closed), Emitted(seen), SaidAll(last));
    SeedsInFront(seeds, Placed(seen, asking));
  }

  lemma {:induction false} AppliedIs(start: Draft, seen: seq<Event>, e: Event)
    ensures Feeds(Feeds(Feeds(start, Emitted(seen)), SaidAll(Released(Waiting(seen), e))), Own(e))
         == Feeds(start, Emitted(seen + [e]))
  {
    hide Feeds, Emitted, Waiting, Own, Released;
    OneMore(seen, e);
    FeedsConcat(Feeds(start, Emitted(seen)), SaidAll(Released(Waiting(seen), e)), Own(e));
    FeedsConcat(start, Emitted(seen), Arrivals(Waiting(seen), e));
  }

  lemma {:induction false} FeedsNone(d: Draft)
    ensures Feeds(d, []) == d
  {
  }

  /** Closing what is open before the last questions are placed changes nothing. */
  lemma {:induction false} FinishIsClosing(d: Draft, last: seq<Held>)
    ensures var closed := Feeds(Draft(Finish(d), Closed), SaidAll(last));
            closed.open.Closed? && closed.messages == Finish(Feeds(d, SaidAll(last)))
  {
    if last == [] {
      assert SaidAll(last) == [];
      assert Finish(d) + [] == Finish(d);
    } else {
      var init := last[..|last| - 1];
      FinishIsClosing(d, init);
      assert SaidAll(last)[..|last| - 1] == SaidAll(init);
      assert Finish(Feeds(d, SaidAll(init))) == Finish(Feeds(Draft(Finish(d), Closed), SaidAll(init)));
    }
  }

  lemma {:induction false} SeedsInFront(seeds: seq<Bounded>, items: seq<Item>)
    ensures Finish(Feeds(Draft(seeds, Closed), items)) == seeds + Group(items)
  {
    assert Draft(seeds + EMPTY.messages, EMPTY.open) == Draft(seeds, Closed) by {
      assert seeds + [] == seeds;
    }
    TwoShifts(seeds, EMPTY, items);
  }

  method EventsVisibleTo(asking: Run, events: seq<Event>, delegated: set<RunId>) returns (kept: seq<Event>)
    ensures kept == Visible(events, asking, delegated)
  {
    kept := [];
    if asking.worker {
      for i := 0 to |events|
        invariant kept == Visible(events[..i], asking, delegated)
      {
        assert events[..i + 1][..i] == events[..i];
        if events[i].run == asking.id {
          kept := kept + [events[i]];
        }
      }
      assert events[..|events|] == events;
      return;
    }
    if |delegated| == 0 {
      NobodyElse(events, asking);
      return events;
    }
    for i := 0 to |events|
      invariant kept == Visible(events[..i], asking, delegated)
    {
      assert events[..i + 1][..i] == events[..i];
      if events[i].run !in delegated {
        kept := kept + [events[i]];
      }
    }
    assert events[..|events|] == events;
  }

  lemma {:induction false} NobodyElse(events: seq<Event>, asking: Run)
    requires !asking.worker
    ensures Visible(events, asking, {}) == events
  {
    if events != [] {
      NobodyElse(events[..|events| - 1], asking);
    }
  }

  lemma {:induction false} NextLive(events: seq<Event>, i: nat, t: Seq)
    requires i < |events|
    ensures Live(EventsAfter(events[..i + 1], t)) == Live(EventsAfter(events[..i], t)) +
            (if t < events[i].seqNo && !events[i].payload.ConversationCompacted? then [events[i]] else [])
  {
    assert events[..i + 1] == events[..i] + [events[i]];
    AfterMore(events[..i], events[i], t);
    LiveMore(EventsAfter(events[..i], t), events[i]);
  }

  lemma {:induction false} NoneLive(events: seq<Event>, t: Seq)
    ensures Live(EventsAfter(events[..0], t)) == []
  {
  }

  /** Replays the log for one run: the conversation, and how far its folds reach. */
  method BuildBoundedConversation(log: seq<Event>, asking: Run, delegated: set<RunId>)
    returns (conversation: seq<Bounded>, throughSeq: Seq)
    ensures conversation == Rebuild(Visible(log, asking, delegated), asking.id)
    ensures throughSeq == Through(Visible(log, asking, delegated))
  {
    hide Live, EventsAfter, Standing, Visible, Placed, Group, Emitted, Waiting, Feeds, Finish, Of;
    var events := EventsVisibleTo(asking, log, delegated);
    var standing := FoldsIn(events);
    throughSeq := 0;
    if |standing| > 0 {
      throughSeq := standing[|standing| - 1].through;
    }

    var builder := new ConversationBuilder(asking.id);
    for i := 0 to |standing|
      invariant builder.Valid() && fresh(builder) && builder.seen == [] && builder.folds == standing[..i]
    {
      builder.Seed(standing[i]);
    }
    assert standing[..|standing|] == standing;

    NoneLive(events, throughSeq);
    for i := 0 to |events|
      invariant builder.Valid() && fresh(builder) && builder.folds == standing
      invariant builder.seen == Live(EventsAfter(events[..i], throughSeq))
    {
      NextLive(events, i, throughSeq);
      if events[i].seqNo <= throughSeq {
        continue;
      }
      if events[i].payload.ConversationCompacted? {
        continue;
      }
      builder.Apply(events[i]);
    }
    assert events[..|events|] == events;
    conversation := builder.Finished();
  }
}
