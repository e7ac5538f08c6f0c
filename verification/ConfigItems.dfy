/** What the elements of a list read as, and what the edits do to them. */
module ConfigItems {
  import opened ConfigText
  import opened ConfigEdit
  import opened ConfigReading
  import opened ConfigTidy
  import opened ConfigLists
  import opened ConfigListReading

  /** The elements read so far, and the section being read. */
  datatype Items = Items(table: string, done: seq<seq<Field>>)

  const NO_ITEMS := Items("", [])

  /** A setting of a section that hangs off an element is a field of it, with the rest of the section's name before it.
      */
  function Within(table: string, list: string): string
    requires Belongs(table, list)
  {
    if table == list then "" else table[|list| + 1..] + "."
  }

  function ItemLine(st: Items, line: string, list: string): Items {
    match Meant(line)
    case ListHeading(name) => Items(name, if name == list then st.done + [[]] else st.done)
    case Heading(name) => st.(table := name)
    case Setting(leaf, value) =>
      if Belongs(st.table, list) then WithField(st, Field(Within(st.table, list) + leaf, value)) else st
    case _ => st
  }

  /** A setting in a section that hangs off a list is a field of the latest element, under the rest of its name. */
  lemma {:induction false} HangsOff(st: Items, list: string, rest: string, line: string)
    requires Meant(line).Setting? && st.done != []
    ensures var last, leaf, value := |st.done| - 1, Meant(line).leaf, Meant(line).value;
            && ItemLine(st.(table := list), line, list).done
               == st.done[last := st.done[last] + [Field(leaf, value)]]
            && ItemLine(st.(table := list + "." + rest), line, list).done
               == st.done[last := st.done[last] + [Field(rest + "." + leaf, value)]]
  {
    hide Meant;
    var table := list + "." + rest;
    assert table[|list| + 1..] == rest;
    assert table[..|list| + 1] == list + ".";
    assert "" + Meant(line).leaf == Meant(line).leaf;
  }

  function WithField(st: Items, f: Field): Items {
    if st.done == [] then st
    else st.(done := st.done[..|st.done| - 1] + [st.done[|st.done| - 1] + [f]])
  }

  function ItemsFrom(st: Items, ls: seq<string>, list: string): Items {
    if ls == [] then st else ItemLine(ItemsFrom(st, ls[..|ls| - 1], list), ls[|ls| - 1], list)
  }

  /** The elements a text gives a list, each with its fields. */
  function Elements(ls: seq<string>, list: string): seq<seq<Field>> {
    ItemsFrom(NO_ITEMS, ls, list).done
  }

  lemma {:induction false} ItemsConcat(st: Items, a: seq<string>, b: seq<string>, list: string)
    ensures ItemsFrom(st, a + b, list) == ItemsFrom(ItemsFrom(st, a, list), b, list)
  {
    if b == [] {
      assert a + b == a;
    } else {
      assert (a + b)[..|a + b| - 1] == a + b[..|b| - 1];
      ItemsConcat(st, a, b[..|b| - 1], list);
    }
  }

  lemma {:induction false} ItemsOne(st: Items, x: string, list: string)
    ensures ItemsFrom(st, [x], list) == ItemLine(st, x, list) && ItemsFrom(st, [], list) == st
  {
    assert [x][..0] == [];
  }

  lemma {:induction false} ItemsFirst(st: Items, x: string, rest: seq<string>, list: string)
    ensures ItemsFrom(st, [x] + rest, list) == ItemsFrom(ItemLine(st, x, list), rest, list)
  {
    hide Meant;
    ItemsConcat(st, [x], rest, list);
    ItemsOne(st, x, list);
  }

  // ---- what is written is what is read --------------------------------------------------------

  lemma {:induction false} FieldsRead(done: seq<seq<Field>>, f: seq<Field>, item: seq<Field>, list: string)
    requires forall x :: x in item ==> BareKey(x.name) && Plain(x.value)
    ensures ItemsFrom(Items(list, done + [f]), FieldLines(item), list) == Items(list, done + [f + item])
  {
    hide Meant;
    if item == [] {
      assert f + item == f && FieldLines(item) == [];
    } else {
      var init, last := item[..|item| - 1], item[|item| - 1];
      assert last in item && forall x :: x in init ==> x in item;
      FieldsRead(done, f, init, list);
      assert FieldLines(item)[..|item| - 1] == FieldLines(init);
      MeantSetting(last.name, last.value);
      assert f + init + [last] == f + item by { assert init + [last] == item; }
      var st := Items(list, done + [f + init]);
      assert st.done[..|done|] == done;
      assert "" + last.name == last.name;
    }
  }

  /** The gap before an element's heading, if there are lines above it. */
  function Gap(before: seq<string>): seq<string> {
    if before == [] then [] else ["\n"]
  }

  lemma {:induction false} OneItemMore(list: string, init: seq<seq<Field>>, item: seq<Field>)
    ensures var before := ItemLines(list, init);
            ItemLines(list, init + [item]) == before + (Gap(before) + [ListHeadingLine(list)] + FieldLines(item))
  {
    hide ListHeadingLine, FieldLines;
    assert (init + [item])[..|init|] == init;
  }

  /** Reading the text of some elements gives those elements. */
  lemma {:induction false} ItemsRead(st: Items, list: string, items: seq<seq<Field>>)
    requires BareTable(list)
    requires forall item, f :: item in items && f in item ==> BareKey(f.name) && Plain(f.value)
    ensures ItemsFrom(st, ItemLines(list, items), list) == if items == [] then st else Items(list, st.done + items)
  {
    hide Meant, ListHeadingLine, FieldLines, ItemLines, ItemsFrom, BareKey, Plain;
    if items == [] {
      NoItemLines(list);
      ItemsOne(st, "", list);
    } else {
      var init, item := items[..|items| - 1], items[|items| - 1];
      assert init + [item] == items;
      assert item in items && forall x :: x in init ==> x in items;
      ItemsRead(st, list, init);
      var before := ItemLines(list, init);
      var mid := ItemsFrom(st, before, list);
      assert mid.done == st.done + init;
      OneItemRead(mid, Gap(before), list, item);
      OneItemMore(list, init, item);
      ItemsConcat(st, before, Gap(before) + [ListHeadingLine(list)] + FieldLines(item), list);
      assert st.done + init + [item] == st.done + items;
    }
  }

  lemma {:induction false} OneItemRead(st: Items, gap: seq<string>, list: string, item: seq<Field>)
    requires BareTable(list) && (gap == [] || gap == ["\n"])
    requires forall f :: f in item ==> BareKey(f.name) && Plain(f.value)
    ensures ItemsFrom(st, gap + [ListHeadingLine(list)] + FieldLines(item), list) == Items(list, st.done + [item])
  {
    hide Meant, ListHeadingLine;
    MeantBlank();
    MeantListHeading(list);
    ItemsConcat(st, gap + [ListHeadingLine(list)], FieldLines(item), list);
    ItemsConcat(st, gap, [ListHeadingLine(list)], list);
    ItemsOne(st, "\n", list);
    ItemsOne(st, ListHeadingLine(list), list);
    FieldsRead(st.done, [], item, list);
    assert [] + item == item;
  }

  // ---- what a list edit does to the elements ------------------------------------------------------

  lemma {:induction false} NoneBefore(ls: seq<string>, list: string, n: nat)
    requires n <= |ls| && BlocksOf(ls, list, n) == []
    ensures ItemsFrom(NO_ITEMS, ls[..n], list).done == []
  {
    hide BlockAt, Meant;
    if n > 0 {
      NoneBefore(ls, list, n - 1);
      assert ls[..n][..n - 1] == ls[..n - 1];
      assert !Heads(ls[n - 1], list);
      NotOurs(ls[n - 1], list);
    }
  }

  /** The text of a list begins with a heading, so it does not matter which section came before. */
  lemma {:induction false} StartsAfresh(st: Items, block: seq<string>, list: string)
    requires OursOnly(block, list) && st.done == []
    ensures ItemsFrom(st, block, list).done == Elements(block, list)
  {
    hide Meant, ItemsFrom;
    if block == [] {
      ItemsOne(st, "", list);
      ItemsOne(NO_ITEMS, "", list);
    } else {
      assert block == [block[0]] + block[1..];
      ItemsFirst(st, block[0], block[1..], list);
      ItemsFirst(NO_ITEMS, block[0], block[1..], list);
    }
  }

  lemma {:induction false} EndsInside(st: Items, ls: seq<string>, list: string, other: string)
    requires OursOnly(ls, list)
    ensures ls != [] ==> Belongs(ItemsFrom(st, ls, other).table, list)
  {
    hide Meant, Belongs;
    if ls != [] {
      var init, x := ls[..|ls| - 1], ls[|ls| - 1];
      assert forall i :: 0 <= i < |init| ==> init[i] == ls[i];
      EndsInside(st, init, list, other);
      if init == [] {
        assert ls[0] == x && Heads(x, list);
      }
    }
  }

  /** A heading that is not one of the list's begins no element of it. */
  lemma {:induction false} NotOurs(line: string, list: string)
    requires !Heads(line, list)
    ensures Meant(line) != ListHeading(list) && (IsHeading(line) ==> !Belongs(Meant(line).name, list))
  {
  }

  /** What is kept of a text without the blocks of a list has no element of it. */
  lemma {:induction false} KeptHasNone(st: Items, ls: seq<string>, list: string, i: nat)
    requires i <= |ls| && (Belongs(st.table, list) ==> Trailing(ls, i))
    ensures ItemsFrom(st, KeptFrom(ls, list, i), list).done == st.done
    decreases |ls| - i
  {
    hide Meant;
    if i < |ls| {
      if Heads(ls[i], list) {
        TrailingTo(ls, BlockEnd(ls, i), NextHeading(ls, i));
        KeptHasNone(st, ls, list, BlockEnd(ls, i));
      } else {
        ItemsFirst(st, ls[i], KeptFrom(ls, list, i + 1), list);
        NotOurs(ls[i], list);
        KeptHasNone(ItemLine(st, ls[i], list), ls, list, i + 1);
      }
    }
  }

  /** Two readings of another list's elements, one of them of the kept lines. */
  ghost predicate ItemsAlike(st: Items, q: Items, ls: seq<string>, i: nat) {
    st.done == q.done && (st.table == q.table || Trailing(ls, i))
  }

  lemma {:induction false} ItemsAlikeLine(st: Items, q: Items, ls: seq<string>, i: nat, other: string)
    requires i < |ls| && ItemsAlike(st, q, ls, i)
    ensures ItemsAlike(ItemLine(st, ls[i], other), ItemLine(q, ls[i], other), ls, i + 1)
  {
    hide Meant;
  }

  /** Neither list's name is part of the other's. */
  predicate Unrelated(list: string, other: string) {
    !Belongs(list, other) && !Belongs(other, list)
  }

  lemma {:induction false} Nested(table: string, list: string, other: string)
    requires Belongs(table, list) && Belongs(table, other) && |list| <= |other|
    ensures Belongs(other, list)
  {
    assert table[..|other|] == other && table[..|list|] == list;
    if |list| < |other| {
      assert table[..|list| + 1] == list + ".";
      assert other[..|list| + 1] == table[..|list| + 1];
    }
  }

  /** A section belongs to one list at most. */
  lemma {:induction false} BelongsToOne(table: string, list: string, other: string)
    requires Unrelated(list, other) && Belongs(table, list)
    ensures !Belongs(table, other)
  {
    hide Belongs;
    if Belongs(table, other) {
      if |list| <= |other| {
        Nested(table, list, other);
      } else {
        Nested(table, other, list);
      }
    }
  }

  /** A stretch of one list has no element of another. */
  lemma {:induction false} OursHaveNone(st: Items, ls: seq<string>, list: string, other: string)
    requires OursOnly(ls, list) && Unrelated(list, other)
    ensures ItemsFrom(st, ls, other).done == st.done
  {
    hide Meant, Belongs;
    if ls != [] {
      var init, x := ls[..|ls| - 1], ls[|ls| - 1];
      assert forall i :: 0 <= i < |init| ==> init[i] == ls[i];
      OursHaveNone(st, init, list, other);
      EndsInside(st, init, list, other);
      if init == [] {
        assert ls[0] == x && Heads(x, list);
      } else {
        BelongsToOne(ItemsFrom(st, init, other).table, list, other);
      }
      if Meant(x).ListHeading? {
        assert Heads(x, list);
        BelongsToOne(Meant(x).name, list, other);
        BelongsToItself(other);
      }
    }
  }

  lemma {:induction false} BelongsToItself(list: string)
    ensures Belongs(list, list)
  {
  }

  lemma {:induction false} KeptHasOthers(st: Items, q: Items, ls: seq<string>, list: string, i: nat, other: string)
    requires i <= |ls| && ItemsAlike(st, q, ls, i) && Unrelated(list, other)
    ensures ItemsFrom(st, ls[i..], other).done == ItemsFrom(q, KeptFrom(ls, list, i), other).done
    decreases |ls| - i
  {
    hide Meant, Trailing;
    if i == |ls| {
      assert ls[i..] == [];
    } else if Heads(ls[i], list) {
      var k := BlockEnd(ls, i);
      var block := ls[i..k];
      assert forall j :: 0 <= j < |block| ==> block[j] == ls[i + j];
      OursHaveNone(st, block, list, other);
      TrailingTo(ls, k, NextHeading(ls, i));
      assert ls[i..] == block + ls[k..];
      ItemsConcat(st, block, ls[k..], other);
      KeptHasOthers(ItemsFrom(st, block, other), q, ls, list, k, other);
    } else {
      ItemsAlikeLine(st, q, ls, i, other);
      assert ls[i..] == [ls[i]] + ls[i + 1..];
      ItemsFirst(st, ls[i], ls[i + 1..], other);
      ItemsFirst(q, ls[i], KeptFrom(ls, list, i + 1), other);
      KeptHasOthers(ItemLine(st, ls[i], other), ItemLine(q, ls[i], other), ls, list, i + 1, other);
    }
  }

  lemma {:induction false} FinishedItems(ls: seq<string>, list: string)
    ensures ItemsFrom(NO_ITEMS, Finished(ls), list) == ItemsFrom(NO_ITEMS, ls, list)
    ensures ItemsFrom(NO_ITEMS, Finished(ls) + ["\n"], list) == ItemsFrom(NO_ITEMS, ls, list)
  {
    hide Meant;
    if ls != [] && !Ended(ls[|ls| - 1]) {
      MeantFinished(ls[|ls| - 1]);
      assert Finished(ls)[..|ls| - 1] == ls[..|ls| - 1];
    }
    MeantBlank();
    ItemsConcat(NO_ITEMS, Finished(ls), ["\n"], list);
    ItemsOne(ItemsFrom(NO_ITEMS, Finished(ls), list), "\n", list);
  }

  /** After a list edit the list has the elements of the new text and no other. */
  lemma {:induction false} NowElements(ls: seq<string>, list: string, block: seq<string>, e: ListEdit)
    requires OursOnly(block, list) && Suits(ls, list, block, e)
    ensures Elements(NowLines(ls, list, block, e), list) == Elements(block, list)
  {
    hide Meant, KeptFrom, Trailing, BlocksOf, ItemsFrom;
    match e
    case InPlace(h) =>
      TrailingTo(ls, BlockEnd(ls, h), NextHeading(ls, h));
      NewElements(ls[..h], ls, list, block, BlockEnd(ls, h)) by {
        NoneBefore(ls, list, h);
      }
    case After(p) =>
      BlocksMeet(ls, list, p);
      NothingDropped(ls, list, p);
      NewElements(Finished(ls[..p]) + ["\n"], ls, list, block, p) by {
        NoneBefore(ls, list, p);
        FinishedItems(ls[..p], list);
      }
    case Alone =>
      ItemsFirst(NO_ITEMS, "\n", block, list);
      MeantBlank();
    case Untouched =>
      NoneBefore(ls, list, |ls|);
      assert ls[..|ls|] == ls;
      ItemsOne(NO_ITEMS, "", list);
  }

  lemma {:induction false} NewElements(head: seq<string>, ls: seq<string>, list: string, block: seq<string>, k: nat)
    requires OursOnly(block, list) && k <= |ls| && Trailing(ls, k) && Elements(head, list) == []
    ensures Elements(head + block + KeptFrom(ls, list, k), list) == Elements(block, list)
  {
    hide Meant, KeptFrom, Trailing, ItemsFrom;
    var st := ItemsFrom(NO_ITEMS, head, list);
    StartsAfresh(st, block, list);
    ItemsConcat(NO_ITEMS, head, block, list);
    ItemsConcat(NO_ITEMS, head + block, KeptFrom(ls, list, k), list);
    KeptHasNone(ItemsFrom(st, block, list), ls, list, k);
  }

  /** The elements of every other list are what they were. */
  lemma {:induction false} NowOthers(ls: seq<string>, list: string, block: seq<string>, e: ListEdit, other: string)
    requires OursOnly(block, list) && Suits(ls, list, block, e) && Unrelated(list, other)
    ensures Elements(NowLines(ls, list, block, e), other) == Elements(ls, other)
  {
    hide Meant, KeptFrom, Trailing, BlocksOf, ItemsFrom;
    ItemsOne(NO_ITEMS, "\n", other);
    MeantBlank();
    match e
    case InPlace(h) => InPlaceOthers(ls, list, h, block, other);
    case After(p) =>
      BlocksMeet(ls, list, p);
      FinishedItems(ls[..p], other);
      NothingDropped(ls, list, p);
      var st := ItemsFrom(NO_ITEMS, ls[..p], other);
      ItemsOne(st, "\n", other);
      OursHaveNone(st, block, list, other);
      ItemsConcat(NO_ITEMS, Finished(ls[..p]) + ["\n"], block, other);
      ItemsConcat(NO_ITEMS, Finished(ls[..p]) + ["\n"] + block, ls[p..], other);
      assert ls == ls[..p] + ls[p..];
      ItemsConcat(NO_ITEMS, ls[..p], ls[p..], other);
      KeptHasOthers(st, ItemsFrom(st, block, other), ls, list, p, other);
    case Alone =>
      ItemsConcat(NO_ITEMS, ["\n"], block, other);
      OursHaveNone(NO_ITEMS, block, list, other);
    case Untouched =>
  }

  lemma {:induction false} InPlaceOthers(ls: seq<string>, list: string, h: nat, block: seq<string>, other: string)
    requires OursOnly(block, list) && h < |ls| && Heads(ls[h], list) && Unrelated(list, other)
    ensures Elements(ls[..h] + block + KeptFrom(ls, list, BlockEnd(ls, h)), other) == Elements(ls, other)
  {
    hide Meant, KeptFrom, Trailing, ItemsFrom;
    var k := BlockEnd(ls, h);
    var st := ItemsFrom(NO_ITEMS, ls[..h], other);
    var gone := ls[h..k];
    assert forall j :: 0 <= j < |gone| ==> gone[j] == ls[h + j];
    OursHaveNone(st, block, list, other);
    ItemsOne(st, "\n", other);
    OursHaveNone(st, gone, list, other);
    TrailingTo(ls, k, NextHeading(ls, h));
    ItemsConcat(NO_ITEMS, ls[..h], block, other);
    ItemsConcat(NO_ITEMS, ls[..h] + block, KeptFrom(ls, list, k), other);
    assert ls == ls[..h] + gone + ls[k..];
    ItemsConcat(NO_ITEMS, ls[..h] + gone, ls[k..], other);
    ItemsConcat(NO_ITEMS, ls[..h], gone, other);
    KeptHasOthers(ItemsFrom(st, gone, other), ItemsFrom(st, block, other), ls, list, k, other);
  }

  // ---- what a list edit keeps tidy ------------------------------------------------------------------

  lemma {:induction false} OnceFirst(r: Reading, x: string, rest: seq<string>, lists: set<string>)
    ensures OnceFrom(r, [x] + rest, lists) <==> OnceLine(r, x, lists) && OnceFrom(ReadLine(r, x), rest, lists)
  {
    hide Meant;
    OnceConcat(r, [x], rest, lists);
    ReadOne(r, x, lists);
  }

  lemma {:induction false} AlikeOnce(r: Reading, q: Reading, ls: seq<string>, i: nat, list: string, lists: set<string>)
    requires i < |ls| && Alike(r, q, ls, i, list) && list in lists && OnceLine(r, ls[i], lists)
    ensures OnceLine(q, ls[i], lists)
  {
    hide Meant;
    if Meant(ls[i]).Setting? && !Listed(q.table, lists) {
      var key := Key(q.table, Meant(ls[i]).leaf);
      assert r.table == q.table && !Belongs(key.table, list);
      assert key in Outside(r.settings, list) <==> key in Outside(q.settings, list);
    }
  }

  /** What is kept gives no setting twice if the whole text does not. */
  lemma {:induction false} KeptOnce(r: Reading, q: Reading, ls: seq<string>, list: string, i: nat, lists: set<string>)
    requires i <= |ls| && Alike(r, q, ls, i, list) && list in lists && OnceFrom(r, ls[i..], lists)
    ensures OnceFrom(q, KeptFrom(ls, list, i), lists)
    decreases |ls| - i
  {
    hide Meant, Outside, Trailing, OnceFrom, OnceLine;
    if i == |ls| {
      NothingMore(q, lists);
    } else if Heads(ls[i], list) {
      var k := BlockEnd(ls, i);
      BlockPassed(r, q, ls, list, i);
      assert ls[i..] == ls[i..k] + ls[k..];
      OnceConcat(r, ls[i..k], ls[k..], lists);
      KeptOnce(ReadFrom(r, ls[i..k]), q, ls, list, k, lists);
    } else {
      assert ls[i..] == [ls[i]] + ls[i + 1..];
      OnceFirst(r, ls[i], ls[i + 1..], lists);
      OnceFirst(q, ls[i], KeptFrom(ls, list, i + 1), lists);
      AlikeOnce(r, q, ls, i, list, lists);
      AlikeLine(r, q, ls, i, list);
      KeptOnce(ReadLine(r, ls[i]), ReadLine(q, ls[i]), ls, list, i + 1, lists);
    }
  }

  /** Whatever a list's own text sets is set in its own elements. */
  lemma {:induction false} OursOnce(r: Reading, ls: seq<string>, list: string, lists: set<string>)
    requires OursOnly(ls, list) && list in lists
    ensures OnceFrom(r, ls, lists)
  {
    hide Meant;
    if ls != [] {
      var init := ls[..|ls| - 1];
      assert forall i :: 0 <= i < |init| ==> init[i] == ls[i];
      OursOnce(r, init, list, lists);
      OursChangesOurs(r, init, list);
    }
  }

  lemma {:induction false} NowOnce(ls: seq<string>, list: string, block: seq<string>, e: ListEdit, lists: set<string>)
    requires OursOnly(block, list) && Suits(ls, list, block, e) && list in lists && OnceFrom(UNREAD, ls, lists)
    ensures OnceFrom(UNREAD, NowLines(ls, list, block, e), lists)
  {
    hide Meant, KeptFrom, Trailing, BlocksOf, OnceFrom, Outside, ReadFrom;
    match e
    case InPlace(h) =>
      assert ls == ls[..h] + ls[h..];
      OnceConcat(UNREAD, ls[..h], ls[h..], lists);
      InPlaceOnce(ls, list, h, block, lists);
    case After(p) =>
      assert ls == ls[..p] + ls[p..];
      OnceConcat(UNREAD, ls[..p], ls[p..], lists);
      AfterOnce(ls, list, p, block, lists);
    case Alone =>
      MeantBlank();
      OnceFirst(UNREAD, "\n", block, lists);
      OursOnce(ReadLine(UNREAD, "\n"), block, list, lists);
    case Untouched =>
  }

  lemma {:induction false} InPlaceOnce(ls: seq<string>, list: string, h: nat, block: seq<string>, lists: set<string>)
    requires OursOnly(block, list) && list in lists && h < |ls| && Heads(ls[h], list)
    requires OnceFrom(UNREAD, ls[..h], lists) && OnceFrom(ReadFrom(UNREAD, ls[..h]), ls[h..], lists)
    ensures OnceFrom(UNREAD, ls[..h] + block + KeptFrom(ls, list, BlockEnd(ls, h)), lists)
  {
    hide Meant, KeptFrom, Trailing, OnceFrom, Outside, ReadFrom;
    var k := BlockEnd(ls, h);
    var r := ReadFrom(UNREAD, ls[..h]);
    OursOnce(r, block, list, lists);
    OursChangesOurs(r, block, list);
    OnceConcat(UNREAD, ls[..h], block, lists);
    ReadConcat(UNREAD, ls[..h], block);
    OnceConcat(UNREAD, ls[..h] + block, KeptFrom(ls, list, k), lists);
    BlockPassed(r, ReadFrom(r, block), ls, list, h);
    assert ls[h..] == ls[h..k] + ls[k..];
    OnceConcat(r, ls[h..k], ls[k..], lists);
    KeptOnce(ReadFrom(r, ls[h..k]), ReadFrom(r, block), ls, list, k, lists);
  }

  lemma {:induction false} AfterOnce(ls: seq<string>, list: string, p: nat, block: seq<string>, lists: set<string>)
    requires OursOnly(block, list) && list in lists && 0 < p <= |ls| && Trailing(ls, p)
               && BlocksOf(ls, list, |ls|) == []
    requires OnceFrom(UNREAD, ls[..p], lists) && OnceFrom(ReadFrom(UNREAD, ls[..p]), ls[p..], lists)
    ensures OnceFrom(UNREAD, Finished(ls[..p]) + ["\n"] + block + ls[p..], lists)
  {
    hide Meant, KeptFrom, Trailing, OnceFrom, Outside, ReadFrom, BlocksOf;
    var head := Finished(ls[..p]) + ["\n"];
    var r := ReadFrom(UNREAD, ls[..p]);
    BlocksMeet(ls, list, p);
    NothingDropped(ls, list, p);
    FinishedReads(UNREAD, ls[..p], lists);
    BlankLineReads(ls[..p]);
    MeantBlank();
    OnceConcat(UNREAD, Finished(ls[..p]), ["\n"], lists);
    ReadOne(r, "\n", lists);
    OursOnce(r, block, list, lists);
    OursChangesOurs(r, block, list);
    NothingMore(r, lists);
    OnceConcat(UNREAD, head, block, lists);
    ReadConcat(UNREAD, head, block);
    OnceConcat(UNREAD, head + block, ls[p..], lists);
    KeptOnce(r, ReadFrom(r, block), ls, list, p, lists);
  }

  lemma {:induction false} KeptReadable(ls: seq<string>, list: string, i: nat)
    requires Readable(ls) && i <= |ls|
    ensures Readable(KeptFrom(ls, list, i))
    decreases |ls| - i
  {
    hide Meant;
    if i < |ls| {
      if Heads(ls[i], list) {
        KeptReadable(ls, list, BlockEnd(ls, i));
      } else {
        KeptReadable(ls, list, i + 1);
        ReadableThen([ls[i]], KeptFrom(ls, list, i + 1));
      }
    }
  }

  lemma {:induction false} NowReadable(ls: seq<string>, list: string, block: seq<string>, e: ListEdit)
    requires Readable(ls) && Readable(block) && Suits(ls, list, block, e)
    ensures Readable(NowLines(ls, list, block, e))
  {
    hide Meant, KeptFrom, Trailing, BlocksOf;
    MeantBlank();
    match e
    case InPlace(h) =>
      KeptReadable(ls, list, BlockEnd(ls, h));
      ReadableThen(ls[..h], block);
      ReadableThen(ls[..h] + block, KeptFrom(ls, list, BlockEnd(ls, h)));
    case After(p) =>
      FinishedReadable(ls[..p]);
      ReadableThen(Finished(ls[..p]), ["\n"]);
      ReadableThen(Finished(ls[..p]) + ["\n"], block);
      ReadableThen(Finished(ls[..p]) + ["\n"] + block, ls[p..]);
    case Alone => ReadableThen(["\n"], block);
    case Untouched =>
  }

  // ---- what the edit of one setting does to the elements ---------------------------------------------

  lemma {:induction false} SameTable(ls: seq<string>, list: string)
    ensures ItemsFrom(NO_ITEMS, ls, list).table == ReadFrom(UNREAD, ls).table
  {
    hide Meant;
    if ls != [] {
      SameTable(ls[..|ls| - 1], list);
    }
  }

  lemma {:induction false} ItemsAround(pre: seq<string>, x: string, post: seq<string>, list: string)
    requires !IsHeading(x) && !Belongs(ReadFrom(UNREAD, pre).table, list)
    ensures ItemsFrom(NO_ITEMS, pre + [x] + post, list) == ItemsFrom(ItemsFrom(NO_ITEMS, pre, list), post, list)
  {
    hide Meant, ItemsFrom, ReadFrom;
    SameTable(pre, list);
    ItemsConcat(NO_ITEMS, pre + [x], post, list);
    ItemsConcat(NO_ITEMS, pre, [x], list);
    ItemsOne(ItemsFrom(NO_ITEMS, pre, list), x, list);
  }

  lemma {:induction false} ReplaceKeepsItems(ls: seq<string>, at: nat, line: string, list: string)
    requires at < |ls| && !IsHeading(ls[at]) && !IsHeading(line) && !Belongs(TableAt(ls, at), list)
    ensures Elements(Apply(ls, Replace(at, line)), list) == Elements(ls, list)
  {
    hide Meant, ItemsFrom, ReadFrom;
    LinesAround(ls, at);
    ItemsAround(ls[..at], ls[at], ls[at + 1..], list);
    ItemsAround(ls[..at], line, ls[at + 1..], list);
  }

  lemma {:induction false} InsertKeepsItems(ls: seq<string>, at: nat, line: string, list: string)
    requires 0 < at <= |ls| && !IsHeading(line) && !Belongs(TableAt(ls, at), list)
    ensures Elements(Apply(ls, Insert(at, line)), list) == Elements(ls, list)
  {
    hide Meant, ItemsFrom, ReadFrom;
    FinishedItems(ls[..at], list);
    FinishedReads(UNREAD, ls[..at], {});
    ItemsAround(Finished(ls[..at]), line, ls[at..], list);
    assert ls == ls[..at] + ls[at..];
    ItemsConcat(NO_ITEMS, ls[..at], ls[at..], list);
  }

  lemma {:induction false} AddSectionKeepsItems(ls: seq<string>, table: string, line: string, list: string)
    requires BareTable(table) && Meant(line).Setting? && !Belongs(table, list)
    ensures Elements(Apply(ls, AddSection(table, line)), list) == Elements(ls, list)
  {
    hide Meant, ItemsFrom, HeadingLine;
    var gap := if ls == [] then [] else ["\n"];
    var st := ItemsFrom(NO_ITEMS, Finished(ls) + gap, list);
    FinishedItems(ls, list);
    MeantHeading(table);
    ItemsConcat(NO_ITEMS, Finished(ls) + gap, [HeadingLine(table), line], list);
    assert Finished(ls) + [] == Finished(ls);
    ItemsFirst(st, HeadingLine(table), [line], list);
    assert [HeadingLine(table)] + [line] == [HeadingLine(table), line];
    ItemsOne(ItemLine(st, HeadingLine(table), list), line, list);
  }

  /** Editing one setting leaves the elements of every list as they were. */
  lemma {:induction false} EditKeepsItems(ls: seq<string>, key: Key, value: string, remove: bool, e: LineEdit,
      list: string)
    requires Writable(key, value) && !Belongs(key.table, list) && Fits(ls, e) && Asked(ls, key, value, remove, e)
    ensures Elements(Apply(ls, e), list) == Elements(ls, list)
  {
    hide Meant, ItemsFrom, ReadFrom, NoHeading, Elements, Section, GoesIn, Placeholder, Unset, SettingLine;
    MeantSetting(key.leaf, value);
    MeantComment(key.leaf, value);
    if !Unset(ls, key) {
      ReplaceKeepsItems(ls, e.at, e.line, list);
    } else if remove {
    } else if NoHeading(ls, key.table) {
      AddSectionKeepsItems(ls, key.table, SettingLine(key.leaf, value), list);
    } else {
      NewKeepsItems(ls, key, value, e, list);
    }
  }

  lemma {:induction false} NewKeepsItems(ls: seq<string>, key: Key, value: string, e: LineEdit, list: string)
    requires Writable(key, value) && !Belongs(key.table, list) && Unset(ls, key) && !NoHeading(ls, key.table)
    requires Fits(ls, e) && Asked(ls, key, value, false, e)
    ensures Elements(Apply(ls, e), list) == Elements(ls, list)
  {
    hide Meant, ItemsFrom, ReadFrom, NoHeading, Elements, Placeholder, Unset, SettingLine;
    var line := SettingLine(key.leaf, value);
    MeantSetting(key.leaf, value);
    var h: nat, stop: nat, last: nat :| Section(ls, key.table, h, stop, last)
        && GoesIn(ls, key.leaf, line, h, stop, last, e);
    if e.Replace? {
      PlaceholderIsComment(ls[e.at], key.leaf);
      TableStays(ls, key.table, h, stop, last, e.at);
      ReplaceKeepsItems(ls, e.at, line, list);
    } else {
      TableStays(ls, key.table, h, stop, last, last + 1);
      InsertKeepsItems(ls, last + 1, line, list);
    }
  }
}
