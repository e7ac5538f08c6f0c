/** How placed items become messages.

    Assistant text and tool calls accumulate into one assistant message, tool
    results into one tool message, and whatever changes the shape of the turn
    closes the one that is open. `Group` is that as a function of the whole item
    sequence; the builder in Conversation is proved to compute it.
  */
module Grouping {
  import opened Domain

  datatype Item =
    | Said(content: seq<Block>, trust: Trust, at: Seq)
    | Reply(text: string, at: Seq)
    | Call(use: Use, at: Seq)
    | Result(outcome: Outcome, at: Seq)
    | Done(at: Seq)

  /** The message being gathered: none, an assistant turn, or the results of one. */
  datatype Open =
    | Closed
    | Speaking(text: string, calls: seq<Use>, last: Seq)
    | Observing(results: seq<Outcome>, last: Seq)

  datatype Draft = Draft(messages: seq<Bounded>, open: Open)

  const EMPTY: Draft := Draft([], Closed)

  function SaidMessage(content: seq<Block>, trust: Trust, at: Seq): Bounded {
    Bounded(Message(User, content), at, trust, false, 0)
  }

  function AssistantMessage(text: string, calls: seq<Use>, at: Seq): Bounded {
    Bounded(Message(Assistant, (if text != "" then [Text(text)] else []) + calls), at, Unstated, false, 0)
  }

  function ToolMessage(results: seq<Outcome>, at: Seq): Bounded {
    Bounded(Message(Tool, results), at, Unstated, false, 0)
  }

  /** The open message, closed. */
  function Rest(open: Open): (r: seq<Bounded>)
    ensures |r| == (if open.Closed? then 0 else 1)
  {
    match open
    case Closed => []
    case Speaking(text, calls, at) => [AssistantMessage(text, calls, at)]
    case Observing(results, at) => [ToolMessage(results, at)]
  }

  function Finish(d: Draft): seq<Bounded> {
    d.messages + Rest(d.open)
  }

  function Feed(d: Draft, x: Item): Draft {
    match x
    case Said(content, trust, at) =>
      Draft(Finish(d) + [SaidMessage(content, trust, at)], Closed)
    case Reply(text, at) =>
      if d.open.Speaking? then d.(open := Speaking(d.open.text + text, d.open.calls, at))
      else Draft(Finish(d), if text == "" then Closed else Speaking(text, [], at))
    case Call(use, at) =>
      if d.open.Speaking? then d.(open := Speaking(d.open.text, d.open.calls + [use], at))
      else Draft(Finish(d), Speaking("", [use], at))
    case Result(outcome, at) =>
      if d.open.Observing? then d.(open := Observing(d.open.results + [outcome], at))
      else Draft(Finish(d), Observing([outcome], at))
    case Done(at) =>
      if d.open.Speaking? then Draft(d.messages + [AssistantMessage(d.open.text, d.open.calls, at)], Closed)
      else d
  }

  function Feeds(d: Draft, items: seq<Item>): Draft {
    if items == [] then d else Feed(Feeds(d, items[..|items| - 1]), items[|items| - 1])
  }

  /** The messages a sequence of items makes. */
  function Group(items: seq<Item>): seq<Bounded> {
    Finish(Feeds(EMPTY, items))
  }

  function ItemsAfter(items: seq<Item>, t: Seq): (kept: seq<Item>)
    ensures forall x :: x in kept ==> x in items && t < x.at
  {
    if items == [] then []
    else
      var kept := ItemsAfter(items[..|items| - 1], t);
      if t < items[|items| - 1].at then kept + [items[|items| - 1]] else kept
  }

  /** Everything but a question sits where the log has it, so it comes after whatever was placed before it. */
  ghost predicate Ordered(items: seq<Item>) {
    forall i, j :: 0 <= i < j < |items| && !items[j].Said? ==> items[i].at < items[j].at
  }

  /** An item that adds nothing to any message. */
  predicate Silent(x: Item) {
    x.Done? || (x.Reply? && x.text == "")
  }

  // ---- feeding in pieces ------------------------------------------------

  lemma {:induction false} FeedsConcat(d: Draft, a: seq<Item>, b: seq<Item>)
    ensures Feeds(d, a + b) == Feeds(Feeds(d, a), b)
  {
    if b == [] {
      assert a + b == a;
    } else {
      assert (a + b)[..|a + b| - 1] == a + b[..|b| - 1];
      FeedsConcat(d, a, b[..|b| - 1]);
    }
  }

  /** Messages already closed are never looked at again. */
  lemma {:induction false} FeedsShift(pre: seq<Bounded>, open: Open, items: seq<Item>)
    ensures Feeds(Draft(pre, open), items)
         == Draft(pre + Feeds(Draft([], open), items).messages, Feeds(Draft([], open), items).open)
  {
    if items == [] {
      assert pre + [] == pre;
    } else {
      FeedsShift(pre, open, items[..|items| - 1]);
      var near := Feeds(Draft([], open), items[..|items| - 1]);
      var x := items[|items| - 1];
      FeedShift(pre, near, x);
    }
  }

  lemma {:induction false} FeedShift(pre: seq<Bounded>, near: Draft, x: Item)
    ensures Feed(Draft(pre + near.messages, near.open), x)
         == Draft(pre + Feed(near, x).messages, Feed(near, x).open)
  {
    assert pre + near.messages + Rest(near.open) == pre + (near.messages + Rest(near.open));
    if x.Said? {
      var m := SaidMessage(x.content, x.trust, x.at);
      assert pre + Finish(near) + [m] == pre + (Finish(near) + [m]);
    } else if x.Done? && near.open.Speaking? {
      var m := AssistantMessage(near.open.text, near.open.calls, x.at);
      assert pre + near.messages + [m] == pre + (near.messages + [m]);
    }
  }

  /** A question closes what is open, so everything around it groups on its own. */
  lemma {:induction false} GroupAroundSaid(a: seq<Item>, x: Item, b: seq<Item>)
    requires x.Said?
    ensures Group(a + [x] + b) == Group(a) + [SaidMessage(x.content, x.trust, x.at)] + Group(b)
  {
    FeedsConcat(EMPTY, a + [x], b);
    FeedsConcat(EMPTY, a, [x]);
    var m := SaidMessage(x.content, x.trust, x.at);
    assert [x][..0] == [];
    assert Feeds(Feeds(EMPTY, a), [x]) == Feed(Feeds(Feeds(EMPTY, a), []), x);
    var mid := Feeds(EMPTY, a + [x]);
    assert mid == Draft(Group(a) + [m], Closed);
    FeedsShift(Group(a) + [m], Closed, b);
  }

  // ---- where messages come from -----------------------------------------

  lemma {:induction false} LastSeqMore(init: seq<Item>, x: Item)
    ensures forall m :: m in Group(init + [x]) ==> m in Group(init) || m.lastSeq == x.at
  {
    assert (init + [x])[..|init|] == init;
  }

  /** Every message ends at the item it was last given. */
  lemma {:induction false} LastSeqIsAnItem(items: seq<Item>)
    ensures forall m :: m in Group(items) ==> exists k :: 0 <= k < |items| && items[k].at == m.lastSeq
  {
    if items != [] {
      var init, x := items[..|items| - 1], items[|items| - 1];
      LastSeqIsAnItem(init);
      LastSeqMore(init, x);
      assert items == init + [x];
      hide Group;
      forall m | m in Group(items)
        ensures exists k :: 0 <= k < |items| && items[k].at == m.lastSeq
      {
        if m in Group(init) {
          var k :| 0 <= k < |init| && init[k].at == m.lastSeq;
          assert items[k].at == m.lastSeq;
        } else {
          assert items[|items| - 1].at == m.lastSeq;
        }
      }
    }
  }

  /** What is open ends before any item that may still be added to it. */
  lemma {:induction false} OpenEndsEarlier(init: seq<Item>, x: Item)
    requires Ordered(init + [x]) && !x.Said?
    ensures forall m :: m in Group(init) ==> m.lastSeq < x.at
  {
    LastSeqIsAnItem(init);
    forall m | m in Group(init) ensures m.lastSeq < x.at {
      var k :| 0 <= k < |init| && init[k].at == m.lastSeq;
      assert (init + [x])[k] == init[k] && (init + [x])[|init|] == x;
    }
  }

  /** A message ends no earlier than anything in it. */
  lemma {:induction false} NothingPastTheLast(items: seq<Item>, t: Seq)
    requires Ordered(items)
    requires forall m :: m in Group(items) ==> m.lastSeq <= t
    ensures forall k :: 0 <= k < |items| && !Silent(items[k]) ==> items[k].at <= t
  {
    if items != [] {
      var init, x := items[..|items| - 1], items[|items| - 1];
      assert items == init + [x];
      var g := Feeds(EMPTY, init);
      forall m | m in Group(init) ensures m.lastSeq <= t {
        if m !in Group(items) {
          assert !x.Said?;
          OpenEndsEarlier(init, x);
          assert x.at in (set n | n in Group(items) :: n.lastSeq) by {
            assert Group(items) != [] && Group(items)[|Group(items)| - 1].lastSeq == x.at;
          }
        }
      }
      NothingPastTheLast(init, t);
      if !Silent(x) {
        assert Group(items)[|Group(items)| - 1].lastSeq == x.at;
      }
    }
  }

  lemma {:induction false} SaidAppears(items: seq<Item>, k: nat)
    requires k < |items| && items[k].Said?
    ensures SaidMessage(items[k].content, items[k].trust, items[k].at) in Group(items)
  {
    var init, x := items[..|items| - 1], items[|items| - 1];
    if k < |init| {
      SaidAppears(init, k);
      assert init[k] == items[k];
      var m := SaidMessage(items[k].content, items[k].trust, items[k].at);
      SaidStays(Feeds(EMPTY, init), x, m);
    } else {
      var f := Feed(Feeds(EMPTY, init), x);
      assert f.messages[|f.messages| - 1] == SaidMessage(x.content, x.trust, x.at);
    }
  }

  lemma {:induction false} SaidStays(d: Draft, x: Item, m: Bounded)
    requires m in Finish(d) && m.message.role.User?
    ensures m in Finish(Feed(d, x))
  {
    assert forall n :: n in Rest(d.open) ==> !n.message.role.User?;
    assert m in d.messages;
  }

  /** What was said comes first, as one text that is not empty, and then the calls; there is at least one of the two. */
  ghost predicate TextThenCalls(blocks: seq<Block>) {
    && blocks != []
    && (forall i :: 0 <= i < |blocks| ==> blocks[i].ToolUse? || (i == 0 && blocks[i].Text? && blocks[i].text != ""))
  }

  ghost predicate TurnsOk(ms: seq<Bounded>) {
    forall m :: m in ms && m.message.role.Assistant? ==> TextThenCalls(m.message.content)
  }

  /** Every assistant turn is words and then calls, and none is empty. */
  lemma {:induction false} TurnsAreTextThenCalls(items: seq<Item>)
    ensures TurnsOk(Group(items))
    ensures var open := Feeds(EMPTY, items).open; open.Speaking? ==> open.text != "" || open.calls != []
  {
    if items != [] {
      var init, x := items[..|items| - 1], items[|items| - 1];
      assert items == init + [x];
      TurnsAreTextThenCalls(init);
      TurnAfter(Feeds(EMPTY, init), x);
    }
  }

  lemma {:induction false} TurnAfter(d: Draft, x: Item)
    requires TurnsOk(Finish(d)) && (d.open.Speaking? ==> d.open.text != "" || d.open.calls != [])
    ensures var r := Feed(d, x);
            TurnsOk(Finish(r)) && (r.open.Speaking? ==> r.open.text != "" || r.open.calls != [])
  {
    hide TextThenCalls;
    var r := Feed(d, x);
    if r.open.Speaking? {
      ClosedTurn(r.open.text, r.open.calls, r.open.last);
    }
    if d.open.Speaking? {
      ClosedTurn(d.open.text, d.open.calls, d.open.last);
      if x.Done? {
        ClosedTurn(d.open.text, d.open.calls, x.at);
      }
    }
    assert forall m :: m in d.messages ==> m in Finish(d);
    assert r.messages == d.messages || r.messages == Finish(d)
        || (r.messages != [] && r.messages[..|r.messages| - 1] == Finish(d)) || x.Done?;
  }

  lemma {:induction false} ClosedTurn(text: string, calls: seq<Use>, at: Seq)
    requires text != "" || calls != []
    ensures TextThenCalls(AssistantMessage(text, calls, at).message.content)
  {
    var blocks := AssistantMessage(text, calls, at).message.content;
    assert forall i :: 0 <= i < |calls| ==> calls[i].ToolUse?;
  }

  // ---- cutting the items where the messages are cut -----------------------

  /** How many items went into the first `cut` messages. */
  function SplitPoint(items: seq<Item>, cut: nat): (p: nat)
    ensures p <= |items|
  {
    if |Group(items)| <= cut || items == [] then |items| else SplitPoint(items[..|items| - 1], cut)
  }

  lemma {:induction false} GroupGrowsByOne(init: seq<Item>, x: Item)
    ensures |Group(init)| <= |Group(init + [x])| <= |Group(init)| + 1
  {
    assert (init + [x])[..|init|] == init;
  }

  lemma {:induction false} OpensAMessage(g: Draft, x: Item)
    requires |Finish(Feed(g, x))| > |Finish(g)|
    ensures Feed(g, x) == Draft(Finish(g) + Feed(EMPTY, x).messages, Feed(EMPTY, x).open)
  {
    assert Finish(EMPTY) == [];
    assert Finish(g) + [] == Finish(g);
    if x.Said? {
      var m := SaidMessage(x.content, x.trust, x.at);
      assert [] + [m] == [m];
    }
  }

  lemma {:induction false} SplitGroups(items: seq<Item>, cut: nat)
    requires cut <= |Group(items)|
    ensures var p := SplitPoint(items, cut);
            && |Group(items[..p])| == cut
            && Group(items) == Group(items[..p]) + Group(items[p..])
  {
    var p := SplitPoint(items, cut);
    if p < |items| {
      SplitBefore(items, cut, p);
      SplitLater(items, p);
    } else {
      assert items[..p] == items && items[p..] == [];
      assert Group(items) + [] == Group(items);
    }
  }

  /** When the split is not at the end, the item there is the one that opened the next message. */
  lemma {:induction false} SplitBefore(items: seq<Item>, cut: nat, p: nat)
    requires cut <= |Group(items)| && p == SplitPoint(items, cut) && p < |items|
    ensures |Group(items[..p])| == cut && |Group(items[..p + 1])| == cut + 1
  {
    var init, x := items[..|items| - 1], items[|items| - 1];
    assert items == init + [x];
    GroupGrowsByOne(init, x);
    if p == |init| {
      assert items[..p] == init && items[..p + 1] == items;
      assert |Group(init)| <= cut;
    } else {
      SplitBefore(init, cut, p);
      assert items[..p] == init[..p] && items[..p + 1] == init[..p + 1];
    }
  }

  lemma {:induction false} FeedsOne(d: Draft, x: Item)
    ensures Feeds(d, [x]) == Feed(d, x)
  {
    assert [x][..0] == [];
  }

  lemma {:induction false} SplitLater(items: seq<Item>, p: nat)
    requires p < |items| && |Group(items[..p + 1])| > |Group(items[..p])|
    ensures Group(items) == Group(items[..p]) + Group(items[p..])
  {
    var a, x, b := items[..p], items[p], items[p + 1..];
    assert items[..p + 1] == a + [x] && items == (a + [x]) + b && items[p..] == [x] + b;
    var g, o := Feeds(EMPTY, a), Feed(EMPTY, x);
    FeedsConcat(EMPTY, a, [x]);
    FeedsOne(g, x);
    FeedsOne(EMPTY, x);
    OpensAMessage(g, x);
    FeedsConcat(EMPTY, a + [x], b);
    FeedsConcat(EMPTY, [x], b);
    TwoShifts(Finish(g), o, b);
  }

  lemma {:induction false} TwoShifts(pre: seq<Bounded>, o: Draft, b: seq<Item>)
    ensures Finish(Feeds(Draft(pre + o.messages, o.open), b)) == pre + Finish(Feeds(o, b))
  {
    FeedsShift(pre + o.messages, o.open, b);
    FeedsShift(o.messages, o.open, b);
    var r := Feeds(Draft([], o.open), b);
    assert (pre + o.messages + r.messages) + Rest(r.open) == pre + ((o.messages + r.messages) + Rest(r.open));
  }

  // ---- the same cut, by log position --------------------------------------

  lemma {:induction false} ItemsAfterConcat(a: seq<Item>, b: seq<Item>, t: Seq)
    ensures ItemsAfter(a + b, t) == ItemsAfter(a, t) + ItemsAfter(b, t)
  {
    if b == [] {
      assert a + b == a;
    } else {
      assert (a + b)[..|a + b| - 1] == a + b[..|b| - 1];
      ItemsAfterConcat(a, b[..|b| - 1], t);
    }
  }

  lemma {:induction false} ItemsAllAfter(items: seq<Item>, t: Seq)
    requires forall x :: x in items ==> t < x.at
    ensures ItemsAfter(items, t) == items
  {
    if items != [] {
      var init, x := items[..|items| - 1], items[|items| - 1];
      assert x in items;
      ItemsAllAfter(init, t);
      assert init + [x] == items;
    }
  }

  lemma {:induction false} SilenceGroupsToNothing(items: seq<Item>)
    requires forall x :: x in items ==> Silent(x)
    ensures Feeds(EMPTY, items) == EMPTY
  {
    if items != [] {
      var init, x := items[..|items| - 1], items[|items| - 1];
      assert x in items && Silent(x);
      SilenceGroupsToNothing(init);
      assert Feed(EMPTY, x) == EMPTY;
    }
  }

  // ---- nothing is lost on the way -----------------------------------------

  /** What a conversation holds, kind by kind, each in order. */
  datatype Content = Content(text: string, calls: seq<Block>, results: seq<Block>, asked: seq<seq<Block>>)

  const NOTHING: Content := Content("", [], [], [])

  function Plus(a: Content, b: Content): Content {
    Content(a.text + b.text, a.calls + b.calls, a.results + b.results, a.asked + b.asked)
  }

  function TextIn(blocks: seq<Block>): string {
    if blocks == [] then ""
    else TextIn(blocks[..|blocks| - 1]) + (if blocks[|blocks| - 1].Text? then blocks[|blocks| - 1].text else "")
  }

  function UsesIn(blocks: seq<Block>): seq<Block> {
    if blocks == [] then []
    else UsesIn(blocks[..|blocks| - 1]) + (if blocks[|blocks| - 1].ToolUse? then [blocks[|blocks| - 1]] else [])
  }

  function MessageContent(m: Bounded): Content {
    match m.message.role
    case User => Content("", [], [], [m.message.content])
    case Assistant => Content(TextIn(m.message.content), UsesIn(m.message.content), [], [])
    case Tool => Content("", [], m.message.content, [])
  }

  function ContentOf(ms: seq<Bounded>): Content {
    if ms == [] then NOTHING else Plus(ContentOf(ms[..|ms| - 1]), MessageContent(ms[|ms| - 1]))
  }

  function ItemContent(x: Item): Content {
    match x
    case Said(content, _, _) => Content("", [], [], [content])
    case Reply(text, _) => Content(text, [], [], [])
    case Call(use, _) => Content("", [use], [], [])
    case Result(outcome, _) => Content("", [], [outcome], [])
    case Done(_) => NOTHING
  }

  function ItemsContent(items: seq<Item>): Content {
    if items == [] then NOTHING
    else Plus(ItemsContent(items[..|items| - 1]), ItemContent(items[|items| - 1]))
  }

  function OpenContent(open: Open): Content {
    match open
    case Closed => NOTHING
    case Speaking(text, calls, _) => Content(text, calls, [], [])
    case Observing(results, _) => Content("", [], results, [])
  }

  lemma {:induction false} BlocksOfAReply(text: string, calls: seq<Use>)
    ensures var blocks := (if text != "" then [Text(text)] else []) + calls;
            TextIn(blocks) == text && UsesIn(blocks) == calls
  {
    var lead: seq<Block> := if text != "" then [Text(text)] else [];
    var blocks := lead + calls;
    if calls == [] {
      assert blocks == lead;
      if text != "" {
        assert lead[..0] == [];
        assert TextIn(lead) == TextIn([]) + text && UsesIn(lead) == UsesIn([]) + [];
      }
    } else {
      var last := calls[|calls| - 1];
      assert last.ToolUse?;
      BlocksOfAReply(text, calls[..|calls| - 1]);
      assert blocks[..|blocks| - 1] == lead + calls[..|calls| - 1];
      assert calls[..|calls| - 1] + [last] == calls;
    }
  }

  lemma {:induction false} RestContent(open: Open)
    ensures ContentOf(Rest(open)) == OpenContent(open)
  {
    if open.Speaking? {
      BlocksOfAReply(open.text, open.calls);
    }
    if !open.Closed? {
      var r := Rest(open);
      assert r[..0] == [];
      assert ContentOf(r) == Plus(NOTHING, MessageContent(r[0]));
    }
  }

  lemma {:induction false} ContentConcat(a: seq<Bounded>, b: seq<Bounded>)
    ensures ContentOf(a + b) == Plus(ContentOf(a), ContentOf(b))
  {
    if b == [] {
      assert a + b == a;
    } else {
      assert (a + b)[..|a + b| - 1] == a + b[..|b| - 1];
      ContentConcat(a, b[..|b| - 1]);
      PlusAssoc(ContentOf(a), ContentOf(b[..|b| - 1]), MessageContent(b[|b| - 1]));
    }
  }

  lemma {:induction false} PlusAssoc(a: Content, b: Content, c: Content)
    ensures Plus(Plus(a, b), c) == Plus(a, Plus(b, c))
  {
    assert (a.text + b.text) + c.text == a.text + (b.text + c.text);
    assert (a.calls + b.calls) + c.calls == a.calls + (b.calls + c.calls);
    assert (a.results + b.results) + c.results == a.results + (b.results + c.results);
    assert (a.asked + b.asked) + c.asked == a.asked + (b.asked + c.asked);
  }

  lemma {:induction false} ItemsContentConcat(a: seq<Item>, b: seq<Item>)
    ensures ItemsContent(a + b) == Plus(ItemsContent(a), ItemsContent(b))
  {
    if b == [] {
      assert a + b == a;
    } else {
      assert (a + b)[..|a + b| - 1] == a + b[..|b| - 1];
      ItemsContentConcat(a, b[..|b| - 1]);
      PlusAssoc(ItemsContent(a), ItemsContent(b[..|b| - 1]), ItemContent(b[|b| - 1]));
    }
  }

  function DraftContent(d: Draft): Content {
    Plus(ContentOf(d.messages), OpenContent(d.open))
  }

  lemma {:induction false} FinishContent(d: Draft)
    ensures ContentOf(Finish(d)) == DraftContent(d)
  {
    ContentConcat(d.messages, Rest(d.open));
    RestContent(d.open);
  }

  lemma {:induction false} PlusNothing(c: Content)
    ensures Plus(c, NOTHING) == c
  {
  }

  /** An item either goes into what is open or starts afresh after it. */
  lemma {:induction false} FeedContent(d: Draft, x: Item)
    ensures DraftContent(Feed(d, x)) == Plus(DraftContent(d), ItemContent(x))
  {
    if x.Said? || x.Done? {
      ClosingContent(d, x);
    } else if (x.Result? && d.open.Observing?) || (!x.Result? && d.open.Speaking?) {
      JoiningContent(d, x);
    } else {
      hide ContentOf, Finish;
      FinishContent(d);
      assert OpenContent(Feed(d, x).open) == ItemContent(x);
    }
  }

  lemma {:induction false} ClosingContent(d: Draft, x: Item)
    requires x.Said? || x.Done?
    ensures DraftContent(Feed(d, x)) == Plus(DraftContent(d), ItemContent(x))
  {
    var f := Feed(d, x);
    FinishContent(d);
    PlusNothing(DraftContent(d));
    PlusNothing(ContentOf(f.messages));
    if x.Said? {
      assert f.messages[..|f.messages| - 1] == Finish(d);
    } else if d.open.Speaking? {
      BlocksOfAReply(d.open.text, d.open.calls);
      assert f.messages[..|f.messages| - 1] == d.messages;
    }
  }

  lemma {:induction false} JoiningContent(d: Draft, x: Item)
    requires (x.Result? && d.open.Observing?) || ((x.Reply? || x.Call?) && d.open.Speaking?)
    ensures DraftContent(Feed(d, x)) == Plus(DraftContent(d), ItemContent(x))
  {
    hide ContentOf, Finish;
    PlusAssoc(ContentOf(d.messages), OpenContent(d.open), ItemContent(x));
    assert OpenContent(Feed(d, x).open) == Plus(OpenContent(d.open), ItemContent(x));
  }

  /** Grouping neither loses nor repeats nor reorders anything of a kind. */
  lemma {:induction false} GroupConserves(items: seq<Item>)
    ensures ContentOf(Group(items)) == ItemsContent(items)
  {
    FinishContent(Feeds(EMPTY, items));
    if items != [] {
      var init := items[..|items| - 1];
      GroupConserves(init);
      FinishContent(Feeds(EMPTY, init));
      FeedContent(Feeds(EMPTY, init), items[|items| - 1]);
    }
  }

  function Mass(c: Content): nat {
    |c.text| + |c.calls| + |c.results| + |c.asked|
  }

  lemma {:induction false} NoMassIsSilence(items: seq<Item>)
    requires Mass(ItemsContent(items)) == 0
    ensures forall x :: x in items ==> Silent(x)
  {
    if items != [] {
      NoMassIsSilence(items[..|items| - 1]);
      assert items == items[..|items| - 1] + [items[|items| - 1]];
    }
  }

  // ---- the cut commutes with rebuilding ------------------------------------

  /** `t` tells the items before the cut from the items after it: nothing that
      went into the messages before it is later in the log than `t`, and no
      message after it is at or before `t`. */
  ghost predicate Separates(items: seq<Item>, cut: nat, t: Seq) {
    && (forall x :: x in items[..SplitPoint(items, cut)] && !Silent(x) ==> x.at <= t)
    && (forall m :: m in Group(items[SplitPoint(items, cut)..]) ==> t < m.lastSeq)
  }

  /** What comes after the cut is all later than `t` as soon as its messages are. */
  lemma {:induction false} TailIsLate(items: seq<Item>, cut: nat, t: Seq)
    requires Ordered(items) && cut <= |Group(items)|
    requires exists k :: 0 <= k < SplitPoint(items, cut) && items[k].at == t
    requires forall m :: m in Group(items[SplitPoint(items, cut)..]) ==> t < m.lastSeq
    ensures forall x :: x in items[SplitPoint(items, cut)..] ==> t < x.at
  {
    var p := SplitPoint(items, cut);
    var b := items[p..];
    var k :| 0 <= k < p && items[k].at == t;
    forall x | x in b ensures t < x.at {
      var j :| 0 <= j < |b| && b[j] == x;
      assert items[p + j] == x;
      if x.Said? {
        SaidAppears(b, j);
      }
    }
  }

  /** Where the messages are cut and where the log is cut are the same place exactly when `t` separates them. */
  lemma {:induction false} CutCommutesIff(items: seq<Item>, cut: nat, t: Seq)
    requires Ordered(items) && 0 < cut <= |Group(items)| && t == Group(items)[cut - 1].lastSeq
    ensures Group(ItemsAfter(items, t)) == Group(items)[cut..] <==> Separates(items, cut, t)
  {
    var p := SplitPoint(items, cut);
    SplitGroups(items, cut);
    assert Group(items)[cut..] == Group(items[p..]);
    TheCutIsAnItem(items, cut, t);
    if Group(ItemsAfter(items, t)) == Group(items[p..]) {
      CommutingSeparates(items, cut, t);
    }
    if Separates(items, cut, t) {
      SeparatedCommutes(items, cut, t);
    }
  }

  lemma {:induction false} TheCutIsAnItem(items: seq<Item>, cut: nat, t: Seq)
    requires 0 < cut <= |Group(items)| && t == Group(items)[cut - 1].lastSeq
    ensures exists k :: 0 <= k < SplitPoint(items, cut) && items[k].at == t
  {
    var a := items[..SplitPoint(items, cut)];
    SplitGroups(items, cut);
    LastSeqIsAnItem(a);
    assert Group(a)[cut - 1] == Group(items)[cut - 1] && Group(a)[cut - 1] in Group(a);
    var k :| 0 <= k < |a| && a[k].at == t;
    assert items[k].at == t;
  }

  lemma {:induction false} OnlyTheTailIsLate(items: seq<Item>, p: nat, t: Seq)
    requires p <= |items|
    requires forall x :: x in items[p..] ==> t < x.at
    ensures ItemsAfter(items, t) == ItemsAfter(items[..p], t) + items[p..]
  {
    ItemsAllAfter(items[p..], t);
    assert items == items[..p] + items[p..];
    ItemsAfterConcat(items[..p], items[p..], t);
  }

  lemma {:induction false} SilentLead(a: seq<Item>, b: seq<Item>)
    requires forall x :: x in a ==> Silent(x)
    ensures Group(a + b) == Group(b)
  {
    SilenceGroupsToNothing(a);
    FeedsConcat(EMPTY, a, b);
  }

  lemma {:induction false} LeadIsSilent(a: seq<Item>, b: seq<Item>)
    requires Group(a + b) == Group(b)
    ensures forall x :: x in a ==> Silent(x)
  {
    GroupConserves(a + b);
    GroupConserves(b);
    ItemsContentConcat(a, b);
    MassPlus(ItemsContent(a), ItemsContent(b));
    NoMassIsSilence(a);
  }

  lemma {:induction false} SeparatedCommutes(items: seq<Item>, cut: nat, t: Seq)
    requires Ordered(items) && cut <= |Group(items)| && Separates(items, cut, t)
    requires exists k :: 0 <= k < SplitPoint(items, cut) && items[k].at == t
    ensures Group(ItemsAfter(items, t)) == Group(items[SplitPoint(items, cut)..])
  {
    var p := SplitPoint(items, cut);
    TailIsLate(items, cut, t);
    OnlyTheTailIsLate(items, p, t);
    SilentLead(ItemsAfter(items[..p], t), items[p..]);
  }

  lemma {:induction false} CommutingSeparates(items: seq<Item>, cut: nat, t: Seq)
    requires Ordered(items) && cut <= |Group(items)|
    requires exists k :: 0 <= k < SplitPoint(items, cut) && items[k].at == t
    requires Group(ItemsAfter(items, t)) == Group(items[SplitPoint(items, cut)..])
    ensures Separates(items, cut, t)
  {
    var p := SplitPoint(items, cut);
    MessagesAfter(items, t);
    TailIsLate(items, cut, t);
    OnlyTheTailIsLate(items, p, t);
    LeadIsSilent(ItemsAfter(items[..p], t), items[p..]);
    LateOnesAreKept(items[..p], t);
  }

  lemma {:induction false} MassPlus(a: Content, b: Content)
    ensures Mass(Plus(a, b)) == Mass(a) + Mass(b)
  {
  }

  lemma {:induction false} MessagesAfter(items: seq<Item>, t: Seq)
    ensures forall m :: m in Group(ItemsAfter(items, t)) ==> t < m.lastSeq
  {
    LastSeqIsAnItem(ItemsAfter(items, t));
    forall m | m in Group(ItemsAfter(items, t)) ensures t < m.lastSeq {
      var k :| 0 <= k < |ItemsAfter(items, t)| && ItemsAfter(items, t)[k].at == m.lastSeq;
      assert ItemsAfter(items, t)[k] in ItemsAfter(items, t);
    }
  }

  lemma {:induction false} LateOnesAreKept(items: seq<Item>, t: Seq)
    ensures forall x :: x in items && t < x.at ==> x in ItemsAfter(items, t)
  {
    if items != [] {
      LateOnesAreKept(items[..|items| - 1], t);
      assert items == items[..|items| - 1] + [items[|items| - 1]];
    }
  }

  ghost predicate Increasing(ms: seq<Bounded>) {
    forall i, j :: 0 <= i < j < |ms| ==> ms[i].lastSeq < ms[j].lastSeq
  }

  /** Messages that end later and later are always separated. */
  lemma {:induction false} IncreasingSeparates(items: seq<Item>, cut: nat)
    requires Ordered(items) && 0 < cut <= |Group(items)| && Increasing(Group(items))
    ensures Separates(items, cut, Group(items)[cut - 1].lastSeq)
  {
    hide Group;
    var p, g := SplitPoint(items, cut), Group(items);
    var t := g[cut - 1].lastSeq;
    var a, b := items[..p], items[p..];
    SplitGroups(items, cut);
    forall m | m in Group(a) ensures m.lastSeq <= t {
      var i :| 0 <= i < |Group(a)| && Group(a)[i] == m;
      assert g[i] == m;
    }
    NothingPastTheLast(a, t);
    forall m | m in Group(b) ensures t < m.lastSeq {
      var i :| 0 <= i < |Group(b)| && Group(b)[i] == m;
      assert g[cut + i] == m;
    }
  }
}
