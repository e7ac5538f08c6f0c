/** Replacing a list of tables: its blocks come out and the new ones go where the first of them was. */
module ConfigLists {
  import opened Wrappers
  import opened ConfigText
  import opened ConfigEdit

  datatype Block = Block(start: nat, stop: nat)

  /** Blocks in order, none reaching into the next. */
  ghost predicate Apart(text: string, blocks: seq<Block>, from: nat) {
    && (forall i :: 0 <= i < |blocks| ==> from <= blocks[i].start <= blocks[i].stop <= |text|)
    && (forall i, j :: 0 <= i < j < |blocks| ==> blocks[i].stop <= blocks[j].start)
  }

  /** The text from an offset on, without the blocks. */
  function Remaining(text: string, blocks: seq<Block>, from: nat): string
    requires from <= |text| && Apart(text, blocks, from)
    decreases |blocks|
  {
    if blocks == [] then text[from..]
    else
      assert forall i :: 0 <= i < |blocks[1..]| ==> blocks[1..][i] == blocks[i + 1];
      text[from..blocks[0].start] + Remaining(text, blocks[1..], blocks[0].stop)
  }

  /** The first block replaced by `with` and every other by nothing, all at once. */
  function Replaced(text: string, blocks: seq<Block>, with: string): string
    requires blocks != [] && Apart(text, blocks, 0)
  {
    assert forall i :: 0 <= i < |blocks[1..]| ==> blocks[1..][i] == blocks[i + 1];
    text[..blocks[0].start] + with + Remaining(text, blocks[1..], blocks[0].stop)
  }

  lemma {:induction false} ApartTail(text: string, blocks: seq<Block>, from: nat, i: nat)
    requires Apart(text, blocks, from) && i < |blocks|
    ensures Apart(text, blocks[i..], from) && Apart(text, blocks[i + 1..], from)
              && Apart(text, blocks[i + 1..], blocks[i].stop)
    ensures blocks[i..][0] == blocks[i] && blocks[i..][1..] == blocks[i + 1..]
  {
    var with, without := blocks[i..], blocks[i + 1..];
    assert forall k :: 0 <= k < |without| ==> without[k] == blocks[i + 1 + k];
    assert forall k :: 0 <= k < |with| ==> with[k] == blocks[i + k];
  }

  lemma {:induction false} SliceSplits(text: string, from: nat, to: nat, end: nat)
    requires from <= to <= end <= |text|
    ensures text[from..end] == text[from..to] + text[to..end]
  {
  }

  /** Up to the first block nothing is missing. */
  lemma {:induction false} RemainingFrom(text: string, blocks: seq<Block>, from: nat, to: nat)
    requires from <= to <= |text| && Apart(text, blocks, to)
    ensures Remaining(text, blocks, from) == text[from..to] + Remaining(text, blocks, to)
  {
    if blocks == [] {
      SliceSplits(text, from, to, |text|);
      assert text[from..|text|] == text[from..] && text[to..|text|] == text[to..];
    } else {
      ApartTail(text, blocks, to, 0);
      SliceSplits(text, from, to, blocks[0].start);
      FirstOut(text, blocks, from);
      FirstOut(text, blocks, to);
      GluesOn(text[from..to], text[to..blocks[0].start], Remaining(text, blocks[1..], blocks[0].stop));
    }
  }

  lemma {:induction false} FirstOut(text: string, blocks: seq<Block>, from: nat)
    requires blocks != [] && from <= |text| && Apart(text, blocks, from) && Apart(text, blocks[1..], blocks[0].stop)
    ensures Remaining(text, blocks, from) == text[from..blocks[0].start] + Remaining(text, blocks[1..], blocks[0].stop)
  {
  }

  lemma {:induction false} GluesOn(a: string, b: string, c: string)
    ensures (a + b) + c == a + (b + c)
  {
  }

  lemma {:induction false} TakeOut(text: string, blocks: seq<Block>, i: nat)
    requires Apart(text, blocks, 0) && i < |blocks|
    requires Apart(text, blocks[i..], 0) && Apart(text, blocks[i + 1..], 0)
    ensures var later := Remaining(text, blocks[i + 1..], 0);
            && blocks[i].stop <= |later|
            && Splice(later, blocks[i].start, blocks[i].stop, "") == Remaining(text, blocks[i..], 0)
  {
    ApartTail(text, blocks, 0, i);
    var b := blocks[i];
    RemainingFrom(text, blocks[i + 1..], 0, b.stop);
    var rest := Remaining(text, blocks[i + 1..], b.stop);
    assert Remaining(text, blocks[i + 1..], 0) == text[..b.stop] + rest;
    assert Remaining(text, blocks[i..], 0) == text[..b.start] + rest;
  }

  /** Takes the blocks out back to front, so the offsets that are left stay true, and puts the new text
      where the first of them was. */
  method ReplaceBlocks(text: string, blocks: seq<Block>, with: string) returns (out: string)
    requires blocks != [] && Apart(text, blocks, 0)
    ensures out == Replaced(text, blocks, with)
  {
    hide Remaining;
    out := text;
    var i := |blocks|;
    assert blocks[|blocks|..] == [];
    NothingOut(text);
    while i > 0
      invariant 0 <= i <= |blocks| && Apart(text, blocks[i..], 0)
      invariant out == Remaining(text, blocks[i..], 0)
    {
      i := i - 1;
      ApartTail(text, blocks, 0, i);
      TakeOut(text, blocks, i);
      out := Splice(out, blocks[i].start, blocks[i].stop, "");
    }
    assert blocks[0..] == blocks;
    ApartTail(text, blocks, 0, 0);
    FirstOut(text, blocks, 0);
    assert text[0..blocks[0].start] == text[..blocks[0].start];
    out := Splice(out, blocks[0].start, blocks[0].start, with);
  }

  lemma {:induction false} NothingOut(text: string)
    ensures Remaining(text, [], 0) == text
  {
  }

  // ---- which blocks a list has ----------------------------------------------------------------

  predicate Heads(line: string, list: string) {
    IsHeading(line) && Belongs(Meant(line).name, list)
  }

  /** Where the section that begins at line `h` ends: at the next heading, or with the text. */
  function NextHeading(ls: seq<string>, h: nat): (j: nat)
    requires h < |ls|
    ensures h < j <= |ls|
    ensures forall i :: h < i < j ==> !IsHeading(ls[i])
    ensures j < |ls| ==> IsHeading(ls[j])
    decreases |ls| - h
  {
    hide IsHeading;
    if h + 1 == |ls| || IsHeading(ls[h + 1]) then h + 1 else NextHeading(ls, h + 1)
  }

  /** The lines of one block: its heading and settings, but not the blanks and comments behind them. */
  function BlockAt(ls: seq<string>, h: nat): Block
    requires h < |ls|
  {
    Block(Offset(ls, h), Offset(ls, TrailerCut(ls, h, NextHeading(ls, h))))
  }

  function BlocksOf(ls: seq<string>, list: string, n: nat): seq<Block>
    requires n <= |ls|
  {
    if n == 0 then []
    else
      var before := BlocksOf(ls, list, n - 1);
      if Heads(ls[n - 1], list) then before + [BlockAt(ls, n - 1)] else before
  }

  lemma {:induction false} OffsetsMonotone(ls: seq<string>, i: nat, j: nat)
    requires i <= j <= |ls|
    ensures Offset(ls, i) <= Offset(ls, j) <= |Join(ls)|
  {
    JoinSplits(ls, j);
    assert ls[..j] == ls[..i] + ls[i..j];
    JoinConcat(ls[..i], ls[i..j]);
  }

  lemma {:induction false} BlockEndsInside(ls: seq<string>, h: nat)
    requires h < |ls|
    ensures BlockAt(ls, h).start <= BlockAt(ls, h).stop <= Offset(ls, NextHeading(ls, h)) <= |Join(ls)|
  {
    hide Offset, Join;
    var j := NextHeading(ls, h);
    var cut := TrailerCut(ls, h, j);
    OffsetsMonotone(ls, h, cut);
    OffsetsMonotone(ls, cut, j);
  }

  lemma {:induction false} BlocksEndBefore(ls: seq<string>, list: string, n: nat, h: nat)
    requires n <= h < |ls| && IsHeading(ls[h])
    ensures forall b :: b in BlocksOf(ls, list, n) ==> b.start <= b.stop <= Offset(ls, h)
  {
    if n != 0 {
      hide Offset, Join, BlockAt, IsHeading, Belongs, BlocksOf;
      BlocksEndBefore(ls, list, n - 1, h);
      BlocksMore(ls, list, n);
      BlockEndsInside(ls, n - 1);
      assert NextHeading(ls, n - 1) <= h;
      OffsetsMonotone(ls, NextHeading(ls, n - 1), h);
    }
  }

  lemma {:induction false} BlocksMore(ls: seq<string>, list: string, n: nat)
    requires 0 < n <= |ls|
    ensures forall b :: b in BlocksOf(ls, list, n) ==> b in BlocksOf(ls, list, n - 1) || b == BlockAt(ls, n - 1)
  {
  }

  lemma {:induction false} ApartMore(text: string, blocks: seq<Block>, b: Block)
    requires Apart(text, blocks, 0) && b.start <= b.stop <= |text|
    requires forall x :: x in blocks ==> x.stop <= b.start
    ensures Apart(text, blocks + [b], 0)
  {
    assert forall i :: 0 <= i < |blocks| ==> blocks[i] in blocks;
  }

  /** The blocks of a list never reach into one another, whatever the text. */
  lemma {:induction false} BlocksApart(ls: seq<string>, list: string, n: nat)
    requires n <= |ls|
    ensures Apart(Join(ls), BlocksOf(ls, list, n), 0)
  {
    if n != 0 {
      hide Offset, Join, BlockAt, Meant, Apart;
      BlocksApart(ls, list, n - 1);
      if Heads(ls[n - 1], list) {
        BlockEndsInside(ls, n - 1);
        BlocksEndBefore(ls, list, n - 1, n - 1);
        BlockStart(ls, n - 1);
        ApartMore(Join(ls), BlocksOf(ls, list, n - 1), BlockAt(ls, n - 1));
      }
    } else {
      NoBlocks(Join(ls));
    }
  }

  lemma {:induction false} NoBlocks(text: string)
    ensures Apart(text, [], 0)
  {
  }

  lemma {:induction false} BlockStart(ls: seq<string>, h: nat)
    requires h < |ls|
    ensures BlockAt(ls, h).start == Offset(ls, h)
  {
  }

  method FindBlocks(text: string, nodes: seq<Node>, list: string, ghost ls: seq<string>, ghost at: seq<nat>)
      returns (blocks: seq<Block>)
    requires Lined(ls) && text == Join(ls) && Scanned(ls, nodes, at)
    ensures blocks == BlocksOf(ls, list, |ls|)
  {
    hide Join, Lined, Meant, Offset, TableAt, BlockAt, NextHeading, Scanned, NodesUpTo;
    blocks := [];
    ghost var n := 0;
    OffsetAll(ls);
    NodeCount(ls, nodes, at);
    for i := 0 to |nodes|
      invariant n == (if i == 0 then 0 else at[i - 1] + 1) && n <= |ls|
      invariant blocks == BlocksOf(ls, list, n)
    {
      NothingBetween(ls, nodes, at, list, i);
      HeadingNode(ls, nodes, at, i);
      if !nodes[i].meant.Setting? && Belongs(nodes[i].meant.name, list) {
        var stop := |text|;
        var later := i + 1;
        while later < |nodes| && nodes[later].meant.Setting?
          invariant i < later <= |nodes|
          invariant forall k :: i < k < later ==> nodes[k].meant.Setting?
        {
          later := later + 1;
        }
        if later < |nodes| {
          stop := nodes[later].start;
        }
        NextHeadingNode(ls, nodes, at, i, later);
        var end := WithoutTrailer(text, nodes[i].start, stop, ls, at[i], NextHeading(ls, at[i]));
        BlockIs(ls, at[i]);
        blocks := blocks + [Block(nodes[i].start, end)];
      }
      n := at[i] + 1;
    }
    RestHasNone(ls, nodes, at, list);
  }

  lemma {:induction false} BlockIs(ls: seq<string>, h: nat)
    requires h < |ls|
    ensures BlockAt(ls, h) == Block(Offset(ls, h), Offset(ls, TrailerCut(ls, h, NextHeading(ls, h))))
  {
  }

  lemma {:induction false} HeadingNode(ls: seq<string>, nodes: seq<Node>, at: seq<nat>, i: nat)
    requires Scanned(ls, nodes, at) && i < |nodes|
    ensures i < |at| && at[i] < |ls| && nodes[i].meant == Meant(ls[at[i]]) && nodes[i].start == Offset(ls, at[i])
    ensures nodes[i].meant.Setting? || nodes[i].meant.Heading? || nodes[i].meant.ListHeading?
  {
    hide Meant, TableAt, Offset;
    assert NodeIs(ls, nodes[i], at[i]) && IsNode(ls[at[i]]);
  }

  lemma {:induction false} SkipsOver(ls: seq<string>, list: string, m: nat, n: nat)
    requires m <= n <= |ls| && forall i :: m <= i < n ==> !IsNode(ls[i])
    ensures BlocksOf(ls, list, n) == BlocksOf(ls, list, m)
    decreases n
  {
    if m < n {
      hide Meant, BlockAt;
      SkipsOver(ls, list, m, n - 1);
      assert !IsNode(ls[n - 1]);
    }
  }

  /** No line between two nodes is one, and the next node adds its block if it heads one. */
  lemma {:induction false} NothingBetween(ls: seq<string>, nodes: seq<Node>, at: seq<nat>, list: string, i: nat)
    requires Scanned(ls, nodes, at) && i < |nodes|
    ensures |at| == |nodes| && at[i] < |ls|
    ensures var n := if i == 0 then 0 else at[i - 1] + 1;
            && n <= at[i]
            && BlocksOf(ls, list, at[i] + 1)
               == BlocksOf(ls, list, n) + (if Heads(ls[at[i]], list) then [BlockAt(ls, at[i])] else [])
  {
    hide Meant, TableAt, Offset, BlockAt;
    var n := if i == 0 then 0 else at[i - 1] + 1;
    forall l | n <= l < at[i] ensures !IsNode(ls[l]) {
      NotBetween(at, i - 1, l);
    }
    SkipsOver(ls, list, n, at[i]);
    assert BlocksOf(ls, list, n) + [] == BlocksOf(ls, list, n);
  }

  lemma {:induction false} RestHasNone(ls: seq<string>, nodes: seq<Node>, at: seq<nat>, list: string)
    requires Scanned(ls, nodes, at)
    ensures |at| == |nodes|
    ensures var n := if |at| == 0 then 0 else at[|at| - 1] + 1;
            n <= |ls| && BlocksOf(ls, list, |ls|) == BlocksOf(ls, list, n)
  {
    hide Meant, TableAt, Offset, BlockAt;
    var n := if |at| == 0 then 0 else at[|at| - 1] + 1;
    forall l | n <= l < |ls| ensures !IsNode(ls[l]) {
      NotBetween(at, |at| - 1, l);
    }
    SkipsOver(ls, list, n, |ls|);
  }

  lemma {:induction false} NextHeadingNode(ls: seq<string>, nodes: seq<Node>, at: seq<nat>, i: nat, later: nat)
    requires Scanned(ls, nodes, at) && i < later <= |nodes|
    requires forall k :: i < k < later ==> nodes[k].meant.Setting?
    requires later < |nodes| ==> !nodes[later].meant.Setting?
    ensures |at| == |nodes| && at[i] < |ls|
    ensures NextHeading(ls, at[i]) == if later < |nodes| then at[later] else |ls|
    ensures later < |nodes| ==> nodes[later].start == Offset(ls, at[later])
  {
    hide Meant, TableAt, Offset;
    var j := NextHeading(ls, at[i]);
    if j < |ls| {
      var k := NodeOfLine(ls, nodes, at, j);
      assert i < k;
    }
    if later < |nodes| {
      assert NodeIs(ls, nodes[later], at[later]) && IsNode(ls[at[later]]);
    }
  }

  /** The text a list edit leaves: the list's blocks replaced, all at once, by the new text; or the new text after
      the list's section, or at the end, when the text has none. */
  ghost predicate ListEdited(text: string, list: string, table: string, block: string, out: string) {
    var ls := Lines(text);
    var blocks := BlocksOf(ls, list, |ls|);
    Apart(text, blocks, 0) &&
    if blocks != [] then out == Replaced(text, blocks, block)
    else if block == "" then out == text
    else if NoHeading(ls, table) then out == InsertLine(text, |text|, "\n" + block)
    else exists h: nat, stop: nat, last: nat :: Section(ls, table, h, stop, last)
           && Offset(ls, last + 1) <= |text| && out == InsertLine(text, Offset(ls, last + 1), "\n" + block)
  }

  /** Writes a list as a unit. */
  method EditList(text: string, list: string, table: string, block: string) returns (out: string)
    requires Readable(Lines(text))
    ensures ListEdited(text, list, table, block, out)
  {
    hide Join, Lined, Meant, Offset, TableAt, Section, NoHeading, Readable, NodesUpTo, Scanned, BlocksOf, Apart;
    ghost var ls := Lines(text);
    LinesJoin(text);
    var nodes := Scan(text, ls);
    ghost var at :| Scanned(ls, nodes, at);
    var blocks := FindBlocks(text, nodes, list, ls, at);
    BlocksApart(ls, list, |ls|);
    if |blocks| == 0 && block == "" {
      return text;
    }
    if |blocks| == 0 {
      OffsetAll(ls);
      ghost var h, stop, last;
      var section;
      section, h, stop, last := SectionOf(nodes, table, |text|, ls, at);
      if section.None? {
        return InsertLine(text, |text|, "\n" + block);
      }
      SectionInside(ls, table, h, stop, last);
      JoinSplits(ls, last + 1);
      return InsertLine(text, section.value.after, "\n" + block);
    }
    out := ReplaceBlocks(text, blocks, block);
  }
}
