/** What the rest of a text reads as after a list in it was replaced. */
module ConfigListReading {
  import opened ConfigText
  import opened ConfigEdit
  import opened ConfigReading
  import opened ConfigTidy
  import opened ConfigLists

  // ---- the lines that are left ------------------------------------------------------------

  /** Where a block that begins at line `h` ends. */
  function BlockEnd(ls: seq<string>, h: nat): (k: nat)
    requires h < |ls|
    ensures h < k <= NextHeading(ls, h) <= |ls|
    ensures forall i :: h < i < k ==> !IsHeading(ls[i])
    ensures forall i :: k <= i < NextHeading(ls, h) ==> IsTrailer(ls[i])
  {
    TrailerCut(ls, h, NextHeading(ls, h))
  }

  /** The lines from `i` on that are in no block of the list. */
  function KeptFrom(ls: seq<string>, list: string, i: nat): seq<string>
    requires i <= |ls|
    decreases |ls| - i
  {
    if i == |ls| then []
    else if Heads(ls[i], list) then KeptFrom(ls, list, BlockEnd(ls, i))
    else [ls[i]] + KeptFrom(ls, list, i + 1)
  }

  function BlocksFrom(ls: seq<string>, list: string, i: nat): seq<Block>
    requires i <= |ls|
    decreases |ls| - i
  {
    if i == |ls| then []
    else if Heads(ls[i], list) then [BlockAt(ls, i)] + BlocksFrom(ls, list, i + 1)
    else BlocksFrom(ls, list, i + 1)
  }

  lemma {:induction false} BlocksMeet(ls: seq<string>, list: string, i: nat)
    requires i <= |ls|
    ensures BlocksOf(ls, list, |ls|) == BlocksOf(ls, list, i) + BlocksFrom(ls, list, i)
    decreases |ls| - i
  {
    hide BlockAt, Meant;
    if i < |ls| {
      BlocksMeet(ls, list, i + 1);
      if Heads(ls[i], list) {
        assert BlocksOf(ls, list, i) + [BlockAt(ls, i)] + BlocksFrom(ls, list, i + 1)
            == BlocksOf(ls, list, i) + ([BlockAt(ls, i)] + BlocksFrom(ls, list, i + 1));
      }
    }
  }

  lemma {:induction false} NoBlocksBetween(ls: seq<string>, list: string, i: nat, j: nat)
    requires i <= j <= |ls| && forall k :: i <= k < j ==> !IsHeading(ls[k])
    ensures BlocksFrom(ls, list, i) == BlocksFrom(ls, list, j)
    decreases j - i
  {
    hide BlockAt, Meant;
    if i < j {
      NoBlocksBetween(ls, list, i + 1, j);
    }
  }

  lemma {:induction false} FromApart(ls: seq<string>, list: string, i: nat)
    requires i <= |ls|
    ensures Offset(ls, i) <= |Join(ls)| && Apart(Join(ls), BlocksFrom(ls, list, i), Offset(ls, i))
    decreases |ls| - i
  {
    hide Offset, Join, Meant, BlockAt, Apart;
    OffsetsMonotone(ls, i, |ls|);
    if i == |ls| {
      NothingApart(Join(ls), Offset(ls, i));
    } else {
      FromApart(ls, list, i + 1);
      OffsetsMonotone(ls, i, i + 1);
      ApartEarlier(Join(ls), BlocksFrom(ls, list, i + 1), Offset(ls, i + 1), Offset(ls, i));
      if Heads(ls[i], list) {
        var k := BlockEnd(ls, i);
        BlockIs(ls, i);
        FromApartAt(ls, list, i, k);
        OffsetsMonotone(ls, i, k);
        OffsetsMonotone(ls, k, |ls|);
        ApartCons(Join(ls), BlockAt(ls, i), BlocksFrom(ls, list, k), Offset(ls, i));
        NoBlocksBetween(ls, list, i + 1, k);
      }
    }
  }

  lemma {:induction false} FromApartAt(ls: seq<string>, list: string, i: nat, k: nat)
    requires i < k <= |ls|
    ensures Offset(ls, k) <= |Join(ls)| && Apart(Join(ls), BlocksFrom(ls, list, k), Offset(ls, k))
    decreases |ls| - i, 0
  {
    FromApart(ls, list, k);
  }

  lemma {:induction false} NothingApart(text: string, from: nat)
    ensures Apart(text, [], from)
  {
  }

  lemma {:induction false} ApartEarlier(text: string, blocks: seq<Block>, from: nat, earlier: nat)
    requires Apart(text, blocks, from) && earlier <= from
    ensures Apart(text, blocks, earlier)
  {
  }

  lemma {:induction false} ApartCons(text: string, b: Block, blocks: seq<Block>, from: nat)
    requires from <= b.start <= b.stop <= |text| && Apart(text, blocks, b.stop)
    ensures Apart(text, [b] + blocks, from)
  {
    assert forall i :: 0 < i < |[b] + blocks| ==> ([b] + blocks)[i] == blocks[i - 1];
  }

  /** Taking the blocks out of the text leaves the lines that are in none of them. */
  lemma {:induction false} RemainingIsKept(ls: seq<string>, list: string, i: nat)
    requires i <= |ls|
    requires Offset(ls, i) <= |Join(ls)| && Apart(Join(ls), BlocksFrom(ls, list, i), Offset(ls, i))
    ensures Remaining(Join(ls), BlocksFrom(ls, list, i), Offset(ls, i)) == Join(KeptFrom(ls, list, i))
    decreases |ls| - i
  {
    hide Offset, Join, Meant, BlockAt, Apart, Remaining;
    if i == |ls| {
      OffsetAll(ls);
      NothingKept(Join(ls));
    } else if Heads(ls[i], list) {
      var k := BlockEnd(ls, i);
      FromApart(ls, list, k);
      RemainingIsKept(ls, list, k);
      NoBlocksBetween(ls, list, i + 1, k);
      BlockIs(ls, i);
      assert BlocksFrom(ls, list, i)[1..] == BlocksFrom(ls, list, k);
      FirstOut(Join(ls), BlocksFrom(ls, list, i), Offset(ls, i));
    } else {
      FromApart(ls, list, i + 1);
      RemainingIsKept(ls, list, i + 1);
      OffsetNext(ls, i);
      RemainingFrom(Join(ls), BlocksFrom(ls, list, i), Offset(ls, i), Offset(ls, i + 1));
      JoinConcat([ls[i]], KeptFrom(ls, list, i + 1));
      JoinOne(ls[i]);
    }
  }

  lemma {:induction false} NothingKept(text: string)
    requires Apart(text, [], |text|)
    ensures Remaining(text, [], |text|) == Join([])
  {
    NoLines();
  }

  // ---- what they read as --------------------------------------------------------------------

  /** The settings that have nothing to do with the list. */
  function Outside(settings: map<Key, string>, list: string): map<Key, string> {
    map key | key in settings && !Belongs(key.table, list) :: settings[key]
  }

  /** Up to the next heading there is nothing but blanks and comments. */
  ghost predicate Trailing(ls: seq<string>, i: nat)
    decreases |ls| - i
  {
    i >= |ls| || IsHeading(ls[i]) || (IsTrailer(ls[i]) && Trailing(ls, i + 1))
  }

  lemma {:induction false} TrailingTo(ls: seq<string>, i: nat, j: nat)
    requires i <= j <= |ls| && (forall k :: i <= k < j ==> IsTrailer(ls[k])) && (j < |ls| ==> IsHeading(ls[j]))
    ensures Trailing(ls, i)
    decreases j - i
  {
    hide Meant;
    if i < j {
      TrailingTo(ls, i + 1, j);
    }
  }

  /** Two readings that differ in the list alone, and in the section only where that no longer matters. */
  ghost predicate Alike(r: Reading, q: Reading, ls: seq<string>, i: nat, list: string) {
    Outside(r.settings, list) == Outside(q.settings, list) && (r.table == q.table || Trailing(ls, i))
  }

  lemma {:induction false} OutsideUpdate(a: map<Key, string>, b: map<Key, string>, key: Key, value: string,
      list: string)
    requires Outside(a, list) == Outside(b, list)
    ensures Outside(a[key := value], list) == Outside(b[key := value], list)
    ensures Belongs(key.table, list) ==> Outside(a[key := value], list) == Outside(a, list)
  {
    forall k: Key ensures (k in a && !Belongs(k.table, list)) <==> (k in b && !Belongs(k.table, list)) {
      assert k in Outside(a, list) <==> k in Outside(b, list);
    }
    forall k: Key | k in a && !Belongs(k.table, list) ensures k in b && a[k] == b[k] {
      assert Outside(a, list)[k] == Outside(b, list)[k];
    }
  }

  lemma {:induction false} AlikeLine(r: Reading, q: Reading, ls: seq<string>, i: nat, list: string)
    requires i < |ls| && Alike(r, q, ls, i, list)
    ensures Alike(ReadLine(r, ls[i]), ReadLine(q, ls[i]), ls, i + 1, list)
  {
    hide Meant, Outside;
    match Meant(ls[i])
    case Setting(leaf, value) => OutsideUpdate(r.settings, q.settings, Key(r.table, leaf), value, list);
    case _ =>
  }

  /** A stretch that begins with a heading of the list and has no other heading outside it changes only the list. */
  ghost predicate OursOnly(ls: seq<string>, list: string) {
    && (ls != [] ==> Heads(ls[0], list))
    && (forall i :: 0 <= i < |ls| && IsHeading(ls[i]) ==> Heads(ls[i], list))
  }

  lemma {:induction false} OursChangesOurs(r: Reading, ls: seq<string>, list: string)
    requires OursOnly(ls, list)
    ensures Outside(ReadFrom(r, ls).settings, list) == Outside(r.settings, list)
    ensures ls != [] ==> Belongs(ReadFrom(r, ls).table, list)
  {
    hide Meant, Outside;
    if ls != [] {
      var init, x := ls[..|ls| - 1], ls[|ls| - 1];
      assert forall i :: 0 <= i < |init| ==> init[i] == ls[i];
      OursChangesOurs(r, init, list);
      var q := ReadFrom(r, init);
      match Meant(x)
      case Setting(leaf, value) =>
        assert init != [];
        OutsideUpdate(q.settings, q.settings, Key(q.table, leaf), value, list);
      case _ =>
    }
  }

  lemma {:induction false} ReadFirst(r: Reading, x: string, rest: seq<string>)
    ensures ReadFrom(r, [x] + rest) == ReadFrom(ReadLine(r, x), rest)
  {
    hide Meant;
    ReadConcat(r, [x], rest);
    ReadOne(r, x, {});
  }

  /** The lines that are kept read as the whole text does, but for the list. */
  lemma {:induction false} KeptReads(r: Reading, q: Reading, ls: seq<string>, list: string, i: nat)
    requires i <= |ls| && Alike(r, q, ls, i, list)
    ensures Outside(ReadFrom(r, ls[i..]).settings, list) == Outside(ReadFrom(q, KeptFrom(ls, list, i)).settings, list)
    decreases |ls| - i
  {
    hide Meant, Outside, Trailing;
    if i == |ls| {
      assert ls[i..] == [];
    } else if Heads(ls[i], list) {
      var k := BlockEnd(ls, i);
      BlockPassed(r, q, ls, list, i);
      assert ls[i..] == ls[i..k] + ls[k..];
      ReadConcat(r, ls[i..k], ls[k..]);
      KeptReads(ReadFrom(r, ls[i..k]), q, ls, list, k);
    } else {
      AlikeLine(r, q, ls, i, list);
      assert ls[i..] == [ls[i]] + ls[i + 1..];
      ReadFirst(r, ls[i], ls[i + 1..]);
      ReadFirst(q, ls[i], KeptFrom(ls, list, i + 1));
      KeptReads(ReadLine(r, ls[i]), ReadLine(q, ls[i]), ls, list, i + 1);
    }
  }

  /** Reading a block that the other side does not have. */
  lemma {:induction false} BlockPassed(r: Reading, q: Reading, ls: seq<string>, list: string, i: nat)
    requires i < |ls| && Heads(ls[i], list) && Outside(r.settings, list) == Outside(q.settings, list)
    ensures Alike(ReadFrom(r, ls[i..BlockEnd(ls, i)]), q, ls, BlockEnd(ls, i), list)
  {
    hide Meant, Outside, Trailing;
    var k := BlockEnd(ls, i);
    var block := ls[i..k];
    assert forall j :: 0 <= j < |block| ==> block[j] == ls[i + j];
    OursChangesOurs(r, block, list);
    TrailingTo(ls, k, NextHeading(ls, i));
  }

  // ---- the edit -------------------------------------------------------------------------------

  /** The new text of a list: its own headings and what is under them, each line finished. */
  ghost predicate IsListText(block: string, list: string) {
    OursOnly(Lines(block), list) && (block != "" ==> Ended(block))
  }

  /** Where the new text goes: over the first block, after a line, or alone in an empty text. */
  datatype ListEdit = InPlace(h: nat) | After(p: nat) | Alone | Untouched

  ghost predicate Suits(ls: seq<string>, list: string, block: seq<string>, e: ListEdit) {
    match e
    case InPlace(h) => h < |ls| && Heads(ls[h], list) && BlocksOf(ls, list, h) == []
    case After(p) => 0 < p <= |ls| && Trailing(ls, p) && BlocksOf(ls, list, |ls|) == []
    case Alone => ls == []
    case Untouched => block == [] && BlocksOf(ls, list, |ls|) == []
  }

  /** The lines a list edit leaves. */
  function NowLines(ls: seq<string>, list: string, block: seq<string>, e: ListEdit): seq<string>
    requires Suits(ls, list, block, e)
  {
    match e
    case InPlace(h) => ls[..h] + block + KeptFrom(ls, list, BlockEnd(ls, h))
    case After(p) => Finished(ls[..p]) + ["\n"] + block + ls[p..]
    case Alone => ["\n"] + block
    case Untouched => ls
  }

  lemma {:induction false} BlockEnds(block: string)
    requires block != "" ==> Ended(block)
    ensures Lines(block) != [] ==> Ended(Lines(block)[|Lines(block)| - 1])
  {
    LinesJoin(block);
    if Lines(block) != [] {
      JoinEnds(Lines(block));
    }
  }

  lemma {:induction false} KeptLined(ls: seq<string>, list: string, i: nat)
    requires Lined(ls) && i <= |ls|
    ensures Lined(KeptFrom(ls, list, i))
    decreases |ls| - i
  {
    hide Meant;
    if i < |ls| {
      if Heads(ls[i], list) {
        KeptLined(ls, list, BlockEnd(ls, i));
      } else {
        KeptLined(ls, list, i + 1);
        if i == |ls| - 1 {
          assert KeptFrom(ls, list, i + 1) == [];
        }
        var kept := KeptFrom(ls, list, i + 1);
        assert forall j :: 0 < j < |[ls[i]] + kept| ==> ([ls[i]] + kept)[j] == kept[j - 1];
      }
    }
  }

  lemma {:induction false} InsertedLined(ls: seq<string>, p: nat, bs: seq<string>)
    requires Lined(ls) && 0 < p <= |ls| && Lined(bs) && (bs != [] ==> Ended(bs[|bs| - 1]))
    ensures Lined(Finished(ls[..p]) + ["\n"] + bs + ls[p..])
  {
    hide IsLine;
    MeantBlank();
    LinedPrefix(ls, p);
    FinishedLined(ls[..p]);
    LinedThen(Finished(ls[..p]), ["\n"]);
    LinedThen(Finished(ls[..p]) + ["\n"], bs);
    LinedThen(Finished(ls[..p]) + ["\n"] + bs, ls[p..]);
  }

  lemma {:induction false} InsertedJoins(head: seq<string>, bs: seq<string>, tail: seq<string>)
    ensures Join(head + ["\n" + Join(bs)] + tail) == Join(head + ["\n"] + bs + tail)
  {
    hide Join;
    JoinsAround(head, "\n" + Join(bs), tail);
    JoinConcat(head + ["\n"] + bs, tail);
    JoinConcat(head + ["\n"], bs);
    JoinConcat(head, ["\n"]);
    JoinOne("\n");
    assert Join(head) + ("\n" + Join(bs)) == (Join(head) + "\n") + Join(bs);
  }

  lemma {:induction false} FirstBlock(ls: seq<string>, list: string, n: nat)
    requires n <= |ls| && BlocksOf(ls, list, n) != []
    ensures exists h: nat :: h < n && Heads(ls[h], list) && BlocksOf(ls, list, h) == []
    decreases n
  {
    hide BlockAt, Meant;
    if BlocksOf(ls, list, n - 1) != [] {
      FirstBlock(ls, list, n - 1);
    } else {
      assert Heads(ls[n - 1], list);
    }
  }

  lemma {:induction false} TrailingAfterTheLast(ls: seq<string>, table: string, h: nat, stop: nat, last: nat)
    requires Section(ls, table, h, stop, last)
    ensures Trailing(ls, last + 1)
  {
    hide Meant;
    TrailingTo(ls, last + 1, stop);
  }

  lemma {:induction false} NothingTrails(ls: seq<string>)
    ensures Trailing(ls, |ls|)
  {
  }

  lemma {:induction false} EmptyInsert(block: string)
    ensures InsertLine("", 0, "\n" + block) == "\n" + block
  {
  }

  lemma {:induction false} BlankLineReads(ls: seq<string>)
    ensures ReadFrom(UNREAD, Finished(ls) + ["\n"]) == ReadFrom(UNREAD, ls)
  {
    hide Meant;
    FinishedReads(UNREAD, ls, {});
    ReadConcat(UNREAD, Finished(ls), ["\n"]);
    ReadOne(ReadFrom(UNREAD, ls), "\n", {});
    MeantBlank();
  }

  lemma {:induction false} NothingDropped(ls: seq<string>, list: string, i: nat)
    requires i <= |ls| && BlocksFrom(ls, list, i) == []
    ensures KeptFrom(ls, list, i) == ls[i..]
    decreases |ls| - i
  {
    hide Meant, BlockAt;
    if i < |ls| {
      NothingDropped(ls, list, i + 1);
      assert ls[i..] == [ls[i]] + ls[i + 1..];
    }
  }

  lemma {:induction false} SameOutside(ls: seq<string>, list: string, p: nat, head: seq<string>, block: seq<string>)
    requires p <= |ls| && OursOnly(block, list)
    requires ReadFrom(UNREAD, head) == ReadFrom(UNREAD, ls[..p])
    requires block == [] || Trailing(ls, p)
    ensures Outside(Settings(head + block + KeptFrom(ls, list, p)), list) == Outside(Settings(ls), list)
  {
    hide Meant, Outside, Trailing, ReadFrom;
    var r := ReadFrom(UNREAD, head);
    OursChangesOurs(r, block, list);
    NothingMore(r, {});
    ReadConcat(UNREAD, head, block);
    ReadConcat(UNREAD, head + block, KeptFrom(ls, list, p));
    assert ls == ls[..p] + ls[p..];
    ReadConcat(UNREAD, ls[..p], ls[p..]);
    KeptReads(r, ReadFrom(r, block), ls, list, p);
  }

  lemma {:induction false} ReplacedOutside(ls: seq<string>, list: string, h: nat, block: seq<string>)
    requires OursOnly(block, list) && h < |ls| && Heads(ls[h], list)
    ensures Outside(Settings(ls[..h] + block + KeptFrom(ls, list, BlockEnd(ls, h))), list)
              == Outside(Settings(ls), list)
  {
    hide Meant, Outside, Trailing, ReadFrom, KeptFrom;
    var k := BlockEnd(ls, h);
    var r := ReadFrom(UNREAD, ls[..h]);
    OursChangesOurs(r, block, list);
    ReadConcat(UNREAD, ls[..h], block);
    ReadConcat(UNREAD, ls[..h] + block, KeptFrom(ls, list, k));
    BlockPassed(r, ReadFrom(r, block), ls, list, h);
    assert ls[..k] == ls[..h] + ls[h..k] && ls == ls[..k] + ls[k..];
    ReadConcat(UNREAD, ls[..h], ls[h..k]);
    ReadConcat(UNREAD, ls[..k], ls[k..]);
    KeptReads(ReadFrom(r, ls[h..k]), ReadFrom(r, block), ls, list, k);
  }

  lemma {:induction false} InPlaceLines(ls: seq<string>, list: string, h: nat, block: string)
    requires h < |ls| && Heads(ls[h], list) && BlocksOf(ls, list, h) == []
    ensures var blocks := BlocksOf(ls, list, |ls|);
            && blocks != [] && Apart(Join(ls), blocks, 0)
            && Replaced(Join(ls), blocks, block) == Join(ls[..h] + Lines(block) + KeptFrom(ls, list, BlockEnd(ls, h)))
  {
    hide Offset, Join, Meant, BlockAt, Apart, Remaining, Lines, Lined, KeptFrom, Ended;
    var k, blocks := BlockEnd(ls, h), BlocksOf(ls, list, |ls|);
    BlocksMeet(ls, list, h);
    NoBlocksBetween(ls, list, h + 1, k);
    assert blocks == [BlockAt(ls, h)] + BlocksFrom(ls, list, k);
    assert blocks[1..] == BlocksFrom(ls, list, k);
    BlocksApart(ls, list, |ls|);
    BlockIs(ls, h);
    FromApart(ls, list, k);
    RemainingIsKept(ls, list, k);
    JoinSplits(ls, h);
    LinesJoin(block);
    JoinConcat(ls[..h] + Lines(block), KeptFrom(ls, list, k));
    JoinConcat(ls[..h], Lines(block));
  }

  lemma {:induction false} InPlaceLined(ls: seq<string>, list: string, h: nat, block: seq<string>)
    requires Lined(ls) && h < |ls| && Lined(block)
    requires block != [] ==> Ended(block[|block| - 1])
    ensures Lined(ls[..h] + block + KeptFrom(ls, list, BlockEnd(ls, h)))
  {
    hide KeptFrom, IsLine;
    KeptLined(ls, list, BlockEnd(ls, h));
    LinedPrefix(ls, h);
    LinedThen(ls[..h], block);
    LinedThen(ls[..h] + block, KeptFrom(ls, list, BlockEnd(ls, h)));
  }

  lemma {:induction false} AfterLines(ls: seq<string>, p: nat, block: string)
    requires Lined(ls) && 0 < p <= |ls| && (block != "" ==> Ended(block))
    ensures Offset(ls, p) <= |Join(ls)|
    ensures var now := Finished(ls[..p]) + ["\n"] + Lines(block) + ls[p..];
            Lined(now) && InsertLine(Join(ls), Offset(ls, p), "\n" + block) == Join(now)
  {
    hide Join, Lined, Offset, Lines, Finished;
    LinesJoin(block);
    BlockEnds(block);
    InsertedLined(ls, p, Lines(block));
    InsertIsInsert(ls, p, "\n" + block);
    InsertedJoins(Finished(ls[..p]), Lines(block), ls[p..]);
  }

  lemma {:induction false} AloneLines(block: string)
    requires block != "" ==> Ended(block)
    ensures Lined(["\n"] + Lines(block)) && Join(["\n"] + Lines(block)) == "\n" + block
  {
    LinesJoin(block);
    MeantBlank();
    LinedThen(["\n"], Lines(block));
    JoinConcat(["\n"], Lines(block));
    JoinOne("\n");
  }

  lemma {:induction false} NewListAfter(ls: seq<string>, list: string, p: nat, block: string)
    requires Lined(ls) && 0 < p <= |ls| && Trailing(ls, p) && BlocksOf(ls, list, |ls|) == [] && Ended(block)
    ensures Offset(ls, p) <= |Join(ls)| && Suits(ls, list, Lines(block), After(p))
    ensures var now := NowLines(ls, list, Lines(block), After(p));
            Lined(now) && InsertLine(Join(ls), Offset(ls, p), "\n" + block) == Join(now)
  {
    hide Join, Lined, Offset, Lines, Finished, BlocksOf, Trailing;
    AfterLines(ls, p, block);
  }

  lemma {:induction false} NewListLines(text: string, list: string, table: string, block: string, out: string)
      returns (e: ListEdit)
    requires block != "" && Ended(block) && ListEdited(text, list, table, block, out)
    requires BlocksOf(Lines(text), list, |Lines(text)|) == []
    ensures Suits(Lines(text), list, Lines(block), e)
    ensures Lined(NowLines(Lines(text), list, Lines(block), e))
              && out == Join(NowLines(Lines(text), list, Lines(block), e))
  {
    hide Join, Meant, Apart, Replaced, Trailing, Offset, InsertLine, BlocksOf, NoHeading, Lined, Lines, NowLines,
        Suits, Ended, IsHeading, IsTrailer;
    var ls := Lines(text);
    LinesJoin(text);
    if !NoHeading(ls, table) {
      var h: nat, stop: nat, last: nat :| Section(ls, table, h, stop, last) && Offset(ls, last + 1) <= |text|
                                        && out == InsertLine(text, Offset(ls, last + 1), "\n" + block);
      SectionInside(ls, table, h, stop, last);
      TrailingAfterTheLast(ls, table, h, stop, last);
      NewListAfter(ls, list, last + 1, block);
      e := After(last + 1);
    } else if ls == [] {
      NewListAlone(list, block);
      NoLines();
      e := Alone;
    } else {
      OffsetAll(ls);
      NothingTrails(ls);
      NewListAfter(ls, list, |ls|, block);
      e := After(|ls|);
    }
  }

  lemma {:induction false} NewListAlone(list: string, block: string)
    requires Ended(block)
    ensures Suits([], list, Lines(block), Alone)
    ensures var now := NowLines([], list, Lines(block), Alone);
            Lined(now) && InsertLine("", 0, "\n" + block) == Join(now)
  {
    hide Join, Lined, Lines;
    EmptyInsert(block);
    AloneLines(block);
  }

  /** However a list is edited, what is left are lines again, and these. */
  lemma {:induction false} ListEditLines(text: string, list: string, table: string, block: string, out: string)
      returns (e: ListEdit)
    requires IsListText(block, list) && ListEdited(text, list, table, block, out)
    ensures Suits(Lines(text), list, Lines(block), e)
    ensures Lined(NowLines(Lines(text), list, Lines(block), e))
              && Lines(out) == NowLines(Lines(text), list, Lines(block), e)
  {
    hide Join, Meant, Apart, Replaced, Trailing, Offset, InsertLine, BlocksOf, NoHeading, Lined, Lines, KeptFrom,
        BlockAt;
    var ls := Lines(text);
    LinesJoin(text);
    LinesJoin(block);
    if BlocksOf(ls, list, |ls|) != [] {
      FirstBlock(ls, list, |ls|);
      var h: nat :| h < |ls| && Heads(ls[h], list) && BlocksOf(ls, list, h) == [];
      InPlaceLines(ls, list, h, block);
      BlockEnds(block);
      InPlaceLined(ls, list, h, Lines(block));
      e := InPlace(h);
    } else if block == "" {
      NoLines();
      JoinEmpty(Lines(block));
      e := Untouched;
    } else {
      e := NewListLines(text, list, table, block, out);
    }
    LinesUnique(NowLines(ls, list, Lines(block), e));
  }

  lemma {:induction false} JoinEmpty(ls: seq<string>)
    requires Lined(ls) && Join(ls) == ""
    ensures ls == []
  {
    if ls != [] {
      JoinEnds(ls);
    }
  }

  /** No setting outside the list reads otherwise. */
  lemma {:induction false} NowOutside(ls: seq<string>, list: string, block: seq<string>, e: ListEdit)
    requires OursOnly(block, list) && Suits(ls, list, block, e)
    ensures Outside(Settings(NowLines(ls, list, block, e)), list) == Outside(Settings(ls), list)
  {
    hide Meant, Outside, ReadFrom, KeptFrom, Trailing, BlocksOf;
    match e
    case InPlace(h) => ReplacedOutside(ls, list, h, block);
    case After(p) =>
      BlocksMeet(ls, list, p);
      NothingDropped(ls, list, p);
      BlankLineReads(ls[..p]);
      SameOutside(ls, list, p, Finished(ls[..p]) + ["\n"], block);
    case Alone =>
      MeantBlank();
      ReadFirst(UNREAD, "\n", block);
      OursChangesOurs(UNREAD, block, list);
      NothingMore(UNREAD, {});
    case Untouched =>
  }

  /** However a list is edited, every setting outside it reads as it did. */
  lemma {:induction false} ListEditReads(text: string, list: string, table: string, block: string, out: string)
    requires IsListText(block, list) && ListEdited(text, list, table, block, out)
    ensures Outside(Settings(Lines(out)), list) == Outside(Settings(Lines(text)), list)
  {
    hide Meant, Outside, ReadFrom, Lines, Lined, Suits, ListEdited;
    var e := ListEditLines(text, list, table, block, out);
    NowOutside(Lines(text), list, Lines(block), e);
  }

  // ---- writing the elements ---------------------------------------------------------------------

  datatype Field = Field(name: string, value: string)

  function ListHeadingLine(list: string): string {
    "[[" + list + "]]\n"
  }

  function FieldLines(item: seq<Field>): (r: seq<string>)
    ensures |r| == |item| && forall i :: 0 <= i < |item| ==> r[i] == SettingLine(item[i].name, item[i].value)
  {
    seq(|item|, i requires 0 <= i < |item| => SettingLine(item[i].name, item[i].value))
  }

  /** The lines of the elements, a blank one between two of them. */
  function ItemLines(list: string, items: seq<seq<Field>>): seq<string> {
    if items == [] then []
    else
      var before := ItemLines(list, items[..|items| - 1]);
      before + (if before == [] then [] else ["\n"]) + [ListHeadingLine(list)] + FieldLines(items[|items| - 1])
  }

  lemma {:induction false} ItemsMore(list: string, init: seq<seq<Field>>, item: seq<Field>)
    ensures Join(ItemLines(list, init + [item]))
         == Join(ItemLines(list, init)) + (if init == [] then "" else "\n") + ListHeadingLine(list)
             + Join(FieldLines(item))
  {
    hide Join, ListHeadingLine;
    var before := ItemLines(list, init);
    var gap := if before == [] then [] else ["\n"];
    assert (init + [item])[..|init|] == init;
    JoinConcat(before + gap + [ListHeadingLine(list)], FieldLines(item));
    JoinConcat(before + gap, [ListHeadingLine(list)]);
    JoinConcat(before, gap);
    JoinOne(ListHeadingLine(list));
    JoinOne("\n");
    NoLines();
  }

  method RenderFields(item: seq<Field>) returns (out: string)
    ensures out == Join(FieldLines(item))
  {
    hide Join;
    out := "";
    NoLines();
    ghost var fields := FieldLines(item);
    for f := 0 to |item|
      invariant out == Join(fields[..f])
    {
      assert fields[..f + 1] == fields[..f] + [fields[f]];
      JoinConcat(fields[..f], [fields[f]]);
      JoinOne(fields[f]);
      out := out + SettingLine(item[f].name, item[f].value);
    }
    assert fields[..|fields|] == fields;
  }

  method RenderItems(list: string, items: seq<seq<Field>>) returns (out: string)
    ensures out == Join(ItemLines(list, items))
  {
    hide Join, ItemLines;
    out := "";
    NoLines();
    NoItemLines(list);
    for n := 0 to |items|
      invariant out == Join(ItemLines(list, items[..n]))
    {
      assert items[..n + 1] == items[..n] + [items[n]];
      ItemsMore(list, items[..n], items[n]);
      if n > 0 {
        out := out + "\n";
      }
      var fields := RenderFields(items[n]);
      out := out + ListHeadingLine(list) + fields;
    }
    assert items[..|items|] == items;
  }

  lemma {:induction false} NoItemLines(list: string)
    ensures ItemLines(list, []) == []
  {
  }

  lemma {:induction false} MeantListHeading(list: string)
    requires BareTable(list)
    ensures Meant(ListHeadingLine(list)) == ListHeading(list)
    ensures Written(ListHeadingLine(list)) && Heads(ListHeadingLine(list), list)
  {
    hide SkipSpace, DropSpace, Trim, IndexOf;
    var t := "[[" + list + "]]";
    assert ListHeadingLine(list) == t + "\n";
    TrimsTo(t, "\n");
    assert t[2..] == list + [']'] + "]";
    IndexAfter(list, ']', "]");
    TrimsTo(list, "");
    assert list + "" == list;
    assert t[2..][..|list|] == list;
  }

  /** A line that may stand in the new text of a list. */
  ghost predicate OurLine(line: string, list: string) {
    Written(line) && !Meant(line).Comment? && (IsHeading(line) ==> Heads(line, list))
  }

  lemma {:induction false} OurLines(list: string, items: seq<seq<Field>>)
    requires BareTable(list)
    requires forall item, f :: item in items && f in item ==> BareKey(f.name) && Plain(f.value)
    ensures forall l :: l in ItemLines(list, items) ==> OurLine(l, list)
    ensures items != [] ==> ItemLines(list, items) != [] && ItemLines(list, items)[0] == ListHeadingLine(list)
  {
    hide Meant, SettingLine, ListHeadingLine;
    if items != [] {
      var init, item := items[..|items| - 1], items[|items| - 1];
      assert forall x :: x in init ==> x in items;
      OurLines(list, init);
      MeantBlank();
      MeantListHeading(list);
      var fields := FieldLines(item);
      forall l | l in fields ensures OurLine(l, list) {
        var i :| 0 <= i < |fields| && fields[i] == l;
        assert item in items && item[i] in item;
        MeantSetting(item[i].name, item[i].value);
      }
    }
  }

  /** What is written for a list is a text of its own: its headings and the settings under them. */
  lemma {:induction false} RenderedIsListText(list: string, items: seq<seq<Field>>)
    requires BareTable(list)
    requires forall item, f :: item in items && f in item ==> BareKey(f.name) && Plain(f.value)
    ensures IsListText(Join(ItemLines(list, items)), list)
  {
    hide Meant, Join, Lines, IsLine, ItemLines;
    var ls := ItemLines(list, items);
    OurLines(list, items);
    MeantListHeading(list);
    assert forall i :: 0 <= i < |ls| ==> ls[i] in ls;
    LinesUnique(ls);
    NoLines();
    if ls != [] {
      JoinEnds(ls);
      NoItems(list, items);
    }
  }

  lemma {:induction false} NoItems(list: string, items: seq<seq<Field>>)
    requires ItemLines(list, items) != []
    ensures items != []
  {
  }
}
