/** What an edited text reads back as. */
module ConfigReading {
  import opened Wrappers
  import opened ConfigText
  import opened ConfigEdit
  import TomlString

  // ---- the lines that are written -----------------------------------------------------------

  predicate BareChar(c: char) {
    'A' <= c <= 'Z' || 'a' <= c <= 'z' || '0' <= c <= '9' || c == '_' || c == '-'
  }

  predicate BareKey(s: string) {
    s != "" && forall i :: 0 <= i < |s| ==> BareChar(s[i])
  }

  /** A section's name: bare keys with dots between them. */
  predicate BareTable(s: string) {
    s != "" && forall i :: 0 <= i < |s| ==> BareChar(s[i]) || s[i] == '.'
  }

  /** A value as it is written: on one line and with nothing to trim. */
  predicate Plain(value: string) {
    value != "" && !Space(value[0]) && !Space(value[|value| - 1]) && forall i :: 0 <= i < |value| ==> value[i] != '\n'
  }

  lemma {:induction false} TrimsTo(s: string, tail: string)
    requires s != "" && !Space(s[0]) && !Space(s[|s| - 1])
    requires forall i :: 0 <= i < |tail| ==> Space(tail[i])
    ensures Trim(s + tail) == s
  {
    assert SkipSpace(s + tail) == s + tail;
    DropsTail(s, tail);
  }

  lemma {:induction false} DropsTail(s: string, tail: string)
    requires s != "" && !Space(s[|s| - 1])
    requires forall i :: 0 <= i < |tail| ==> Space(tail[i])
    ensures DropSpace(s + tail) == s
  {
    if tail == "" {
      assert s + tail == s;
    } else {
      assert (s + tail)[..|s + tail| - 1] == s + tail[..|tail| - 1];
      DropsTail(s, tail[..|tail| - 1]);
    }
  }

  lemma {:induction false} IndexAfter(s: string, c: char, rest: string)
    requires forall i :: 0 <= i < |s| ==> s[i] != c
    ensures IndexOf(s + [c] + rest, c) == |s|
  {
    assert (s + [c] + rest)[|s|] == c;
    assert forall i :: 0 <= i < |s| ==> (s + [c] + rest)[i] == s[i];
  }

  lemma {:induction false} MeantSetting(leaf: string, value: string)
    requires BareKey(leaf) && Plain(value)
    ensures Meant(SettingLine(leaf, value)) == Setting(leaf, value)
    ensures IsLine(SettingLine(leaf, value)) && Ended(SettingLine(leaf, value))
  {
    hide SkipSpace, DropSpace, Trim, IndexOf;
    var t := leaf + " = " + value;
    assert SettingLine(leaf, value) == t + "\n";
    TrimsTo(t, "\n");
    assert t == (leaf + " ") + ['='] + (" " + value);
    IndexAfter(leaf + " ", '=', " " + value);
    assert t[..|leaf| + 1] == leaf + " ";
    TrimsTo(leaf, " ");
    assert t[|leaf| + 2..] == " " + value;
    TrimsFront(value);
  }

  lemma {:induction false} TrimsFront(value: string)
    requires Plain(value)
    ensures Trim(" " + value) == value
  {
    assert (" " + value)[1..] == value;
    assert SkipSpace(" " + value) == SkipSpace(value) == value;
    DropsTail(value, "");
    assert value + "" == value;
  }

  lemma {:induction false} MeantComment(leaf: string, value: string)
    requires BareKey(leaf) && Plain(value)
    ensures Meant("# " + SettingLine(leaf, value)) == Comment
    ensures IsLine("# " + SettingLine(leaf, value)) && Ended("# " + SettingLine(leaf, value))
  {
    hide SkipSpace, DropSpace, Trim, IndexOf;
    var t := "# " + leaf + " = " + value;
    assert "# " + SettingLine(leaf, value) == t + "\n";
    TrimsTo(t, "\n");
  }

  lemma {:induction false} MeantHeading(table: string)
    requires BareTable(table)
    ensures Meant(HeadingLine(table)) == Heading(table)
    ensures IsLine(HeadingLine(table)) && Ended(HeadingLine(table))
  {
    hide SkipSpace, DropSpace, Trim, IndexOf;
    var t := "[" + table + "]";
    assert HeadingLine(table) == t + "\n";
    TrimsTo(t, "\n");
    assert t[1..] == table + [']'] + "";
    IndexAfter(table, ']', "");
    TrimsTo(table, "");
    assert table + "" == table;
    assert t[1..][..|table|] == table;
  }

  lemma {:induction false} SkipsMore(s: string)
    ensures SkipSpace(s + "\n") == if SkipSpace(s) == "" then "" else SkipSpace(s) + "\n"
  {
    if s == "" {
      assert s + "\n" == "\n";
      assert "\n"[1..] == "";
    } else if Space(s[0]) {
      assert (s + "\n")[1..] == s[1..] + "\n";
      SkipsMore(s[1..]);
    }
  }

  /** Finishing a line does not change what it says. */
  lemma {:induction false} MeantFinished(line: string)
    ensures Meant(line + "\n") == Meant(line)
  {
    SkipsMore(line);
    var s := SkipSpace(line);
    if s != "" {
      assert (s + "\n")[..|s|] == s;
    }
    assert Trim(line + "\n") == Trim(line);
  }

  lemma {:induction false} MeantBlank()
    ensures Meant("\n") == Blank && IsLine("\n") && Ended("\n")
  {
    assert "\n"[1..] == "";
  }

  lemma {:induction false} SkipBlankSkips(s: string)
    ensures SkipBlank(s) != "" && SkipBlank(s)[0] == '#' ==> SkipSpace(s) == SkipBlank(s)
  {
    if s != "" && (s[0] == ' ' || s[0] == '\t') {
      SkipBlankSkips(s[1..]);
    }
  }

  lemma {:induction false} DropKeepsFirst(s: string)
    requires s != "" && !Space(s[0])
    ensures DropSpace(s) != "" && DropSpace(s)[0] == s[0]
  {
    if Space(s[|s| - 1]) {
      DropKeepsFirst(s[..|s| - 1]);
    }
  }

  /** A placeholder is a comment. */
  lemma {:induction false} PlaceholderIsComment(line: string, leaf: string)
    requires Placeholder(line, leaf)
    ensures Meant(line) == Comment
  {
    SkipBlankSkips(line);
    DropKeepsFirst(SkipSpace(line));
  }

  // ---- one setting among the others -------------------------------------------------------------

  /** No setting is given twice, but for what the elements of the lists set, each its own. */
  ghost predicate OnceFrom(r: Reading, ls: seq<string>, lists: set<string>) {
    if ls == [] then true
    else OnceFrom(r, ls[..|ls| - 1], lists) && OnceLine(ReadFrom(r, ls[..|ls| - 1]), ls[|ls| - 1], lists)
  }

  predicate OnceLine(r: Reading, line: string, lists: set<string>) {
    Meant(line).Setting? && !Listed(r.table, lists) ==> Key(r.table, Meant(line).leaf) !in r.settings
  }

  ghost predicate Avoids(r: Reading, ls: seq<string>, key: Key) {
    if ls == [] then true
    else
      Avoids(r, ls[..|ls| - 1], key) &&
      (Meant(ls[|ls| - 1]).Setting? ==> Key(ReadFrom(r, ls[..|ls| - 1]).table, Meant(ls[|ls| - 1]).leaf) != key)
  }

  lemma {:induction false} OnceConcat(r: Reading, a: seq<string>, b: seq<string>, lists: set<string>)
    ensures OnceFrom(r, a + b, lists) <==> OnceFrom(r, a, lists) && OnceFrom(ReadFrom(r, a), b, lists)
  {
    if b == [] {
      assert a + b == a;
    } else {
      hide Meant;
      assert (a + b)[..|a + b| - 1] == a + b[..|b| - 1];
      OnceConcat(r, a, b[..|b| - 1], lists);
      ReadConcat(r, a, b[..|b| - 1]);
    }
  }

  lemma {:induction false} AvoidsUpdate(r: Reading, ls: seq<string>, key: Key, value: string, lists: set<string>)
    requires Avoids(r, ls, key)
    ensures ReadFrom(r.(settings := r.settings[key := value]), ls)
         == Reading(ReadFrom(r, ls).table, ReadFrom(r, ls).settings[key := value])
    ensures OnceFrom(r, ls, lists) ==> OnceFrom(r.(settings := r.settings[key := value]), ls, lists)
  {
    if ls != [] {
      hide Meant;
      AvoidsUpdate(r, ls[..|ls| - 1], key, value, lists);
    }
  }

  lemma {:induction false} AvoidsRemove(r: Reading, ls: seq<string>, key: Key, lists: set<string>)
    requires Avoids(r, ls, key)
    ensures ReadFrom(r.(settings := r.settings - {key}), ls)
         == Reading(ReadFrom(r, ls).table, ReadFrom(r, ls).settings - {key})
    ensures OnceFrom(r, ls, lists) ==> OnceFrom(r.(settings := r.settings - {key}), ls, lists)
  {
    if ls != [] {
      hide Meant;
      AvoidsRemove(r, ls[..|ls| - 1], key, lists);
    }
  }

  lemma {:induction false} StaysSet(r: Reading, ls: seq<string>, key: Key)
    requires key in r.settings
    ensures key in ReadFrom(r, ls).settings
  {
    if ls != [] {
      StaysSet(r, ls[..|ls| - 1], key);
    }
  }

  lemma {:induction false} OnceAvoids(r: Reading, ls: seq<string>, key: Key, lists: set<string>)
    requires OnceFrom(r, ls, lists) && key in r.settings && !Listed(key.table, lists)
    ensures Avoids(r, ls, key)
  {
    if ls != [] {
      hide Meant;
      OnceAvoids(r, ls[..|ls| - 1], key, lists);
      StaysSet(r, ls[..|ls| - 1], key);
    }
  }

  lemma {:induction false} AbsentAvoids(r: Reading, ls: seq<string>, key: Key)
    requires key !in ReadFrom(r, ls).settings
    ensures Avoids(r, ls, key) && key !in r.settings
  {
    if ls != [] {
      hide Meant;
      AbsentAvoids(r, ls[..|ls| - 1], key);
    }
  }

  lemma {:induction false} SetsMore(init: seq<string>, x: string, i: nat, key: Key)
    ensures i < |init| ==> (Sets(init + [x], i, key) <==> Sets(init, i, key))
    ensures Sets(init + [x], |init|, key)
       <==> Meant(x).Setting? && Key(ReadFrom(UNREAD, init).table, Meant(x).leaf) == key
  {
    hide Meant, ReadFrom;
    assert (init + [x])[..|init|] == init;
    if i < |init| {
      assert (init + [x])[..i] == init[..i];
    }
  }

  lemma {:induction false} UnsetMore(init: seq<string>, x: string, key: Key)
    ensures Unset(init + [x], key) <==>
            Unset(init, key) && !(Meant(x).Setting? && Key(ReadFrom(UNREAD, init).table, Meant(x).leaf) == key)
  {
    hide Meant, ReadFrom, Sets;
    var ls := init + [x];
    forall i: nat ensures i < |init| ==> (Sets(ls, i, key) <==> Sets(init, i, key)) {
      SetsMore(init, x, i, key);
    }
    SetsMore(init, x, 0, key);
    assert Unset(ls, key) ==> !Sets(ls, |init|, key);
  }

  /** A setting is somewhere in the text exactly when reading it finds one. */
  lemma {:induction false} UnsetIff(ls: seq<string>, key: Key)
    ensures Unset(ls, key) <==> key !in Settings(ls)
  {
    if ls != [] {
      hide Meant, Unset;
      var init, x := ls[..|ls| - 1], ls[|ls| - 1];
      assert ls == init + [x];
      UnsetIff(init, key);
      UnsetMore(init, x, key);
    }
  }

  // ---- each kind of edit -------------------------------------------------------------------------

  /** Reads as before but for one key. */
  ghost predicate ReadsAs(before: seq<string>, after: seq<string>, settings: map<Key, string>, lists: set<string>) {
    && Settings(after) == settings
    && (OnceFrom(UNREAD, before, lists) ==> OnceFrom(UNREAD, after, lists))
  }

  lemma {:induction false} ReadOne(r: Reading, x: string, lists: set<string>)
    ensures ReadFrom(r, [x]) == ReadLine(r, x)
    ensures OnceFrom(r, [x], lists) <==> OnceLine(r, x, lists)
  {
    assert [x][..0] == [];
  }

  lemma {:induction false} Around(pre: seq<string>, x: string, post: seq<string>, lists: set<string>)
    ensures ReadFrom(UNREAD, pre + [x] + post) == ReadFrom(ReadLine(ReadFrom(UNREAD, pre), x), post)
    ensures OnceFrom(UNREAD, pre + [x] + post, lists) <==>
            OnceFrom(UNREAD, pre, lists) && OnceFrom(ReadFrom(UNREAD, pre), [x], lists)
                && OnceFrom(ReadLine(ReadFrom(UNREAD, pre), x), post, lists)
  {
    hide Meant, ReadLine;
    ReadConcat(UNREAD, pre + [x], post);
    ReadConcat(UNREAD, pre, [x]);
    ReadOne(ReadFrom(UNREAD, pre), x, lists);
    OnceConcat(UNREAD, pre + [x], post, lists);
    OnceConcat(UNREAD, pre, [x], lists);
  }

  /** The line that sets a key, with another value. */
  lemma {:induction false} ValueChanges(pre: seq<string>, x: string, post: seq<string>, y: string, lists: set<string>)
    requires OnceFrom(UNREAD, pre + [x] + post, lists)
    requires Meant(x).Setting? && Meant(y).Setting? && Meant(x).leaf == Meant(y).leaf
    requires !Listed(ReadFrom(UNREAD, pre).table, lists)
    ensures var key := Key(ReadFrom(UNREAD, pre).table, Meant(x).leaf);
            ReadsAs(pre + [x] + post, pre + [y] + post, Settings(pre + [x] + post)[key := Meant(y).value], lists)
  {
    hide Meant;
    var r := ReadFrom(UNREAD, pre);
    var key, was := Key(r.table, Meant(x).leaf), ReadLine(r, x);
    Around(pre, x, post, lists);
    Around(pre, y, post, lists);
    ReadOne(r, x, lists);
    ReadOne(r, y, lists);
    OnceAvoids(was, post, key, lists);
    AvoidsUpdate(was, post, key, Meant(y).value, lists);
    assert ReadLine(r, y) == was.(settings := was.settings[key := Meant(y).value]);
  }

  /** The line that sets a key, turned into a comment. */
  lemma {:induction false} SettingGoes(pre: seq<string>, x: string, post: seq<string>, y: string, lists: set<string>)
    requires OnceFrom(UNREAD, pre + [x] + post, lists)
    requires Meant(x).Setting? && Meant(y).Comment?
    requires !Listed(ReadFrom(UNREAD, pre).table, lists)
    ensures var key := Key(ReadFrom(UNREAD, pre).table, Meant(x).leaf);
            ReadsAs(pre + [x] + post, pre + [y] + post, Settings(pre + [x] + post) - {key}, lists)
  {
    hide Meant;
    var r := ReadFrom(UNREAD, pre);
    var key, was := Key(r.table, Meant(x).leaf), ReadLine(r, x);
    Around(pre, x, post, lists);
    Around(pre, y, post, lists);
    ReadOne(r, x, lists);
    ReadOne(r, y, lists);
    OnceAvoids(was, post, key, lists);
    AvoidsRemove(was, post, key, lists);
    assert r == was.(settings := was.settings - {key});
  }

  /** A setting that was nowhere, written after `pre`. */
  lemma {:induction false} SettingComes(pre: seq<string>, y: string, post: seq<string>, was: seq<string>,
      lists: set<string>)
    requires Meant(y).Setting? && ReadFrom(UNREAD, was) == ReadFrom(ReadFrom(UNREAD, pre), post)
    requires OnceFrom(UNREAD, was, lists)
        <==> OnceFrom(UNREAD, pre, lists) && OnceFrom(ReadFrom(UNREAD, pre), post, lists)
    requires Key(ReadFrom(UNREAD, pre).table, Meant(y).leaf) !in Settings(was)
    ensures var key := Key(ReadFrom(UNREAD, pre).table, Meant(y).leaf);
            ReadsAs(was, pre + [y] + post, Settings(was)[key := Meant(y).value], lists)
  {
    hide Meant;
    var r := ReadFrom(UNREAD, pre);
    var key := Key(r.table, Meant(y).leaf);
    Around(pre, y, post, lists);
    ReadOne(r, y, lists);
    AbsentAvoids(r, post, key);
    AvoidsUpdate(r, post, key, Meant(y).value, lists);
  }

  /** A key and a value as they can be written on one line. */
  ghost predicate Writable(key: Key, value: string) {
    BareTable(key.table) && BareKey(key.leaf) && Plain(value)
  }

  /** What an edit is meant to make of the settings. */
  function Wanted(settings: map<Key, string>, key: Key, value: string, remove: bool): map<Key, string> {
    if remove then settings - {key} else settings[key := value]
  }

  lemma {:induction false} LinesAround(ls: seq<string>, i: nat)
    requires i < |ls|
    ensures ls == ls[..i] + [ls[i]] + ls[i + 1..]
  {
  }

  lemma {:induction false} ReplacingReads(ls: seq<string>, key: Key, value: string, remove: bool, e: LineEdit,
      lists: set<string>)
    requires Writable(key, value) && OnceFrom(UNREAD, ls, lists) && !Unset(ls, key)
    requires Fits(ls, e) && Asked(ls, key, value, remove, e)
    requires !Listed(key.table, lists)
    ensures ReadsAs(ls, Apply(ls, e), Wanted(Settings(ls), key, value, remove), lists)
  {
    hide Meant, ReadFrom, OnceFrom;
    var pre, x, post := ls[..e.at], ls[e.at], ls[e.at + 1..];
    LinesAround(ls, e.at);
    MeantSetting(key.leaf, value);
    MeantComment(key.leaf, value);
    if remove {
      SettingGoes(pre, x, post, e.line, lists);
    } else {
      ValueChanges(pre, x, post, e.line, lists);
    }
  }

  lemma {:induction false} TableStays(ls: seq<string>, table: string, h: nat, stop: nat, last: nat, i: nat)
    requires Section(ls, table, h, stop, last) && h < i <= stop
    ensures TableAt(ls, i) == table
  {
    hide Meant;
    TableNext(ls, i - 1);
    if h < i - 1 {
      TableStays(ls, table, h, stop, last, i - 1);
    }
  }

  /** A setting written over the comment that held its place. */
  lemma {:induction false} PlaceholderReads(ls: seq<string>, key: Key, value: string, h: nat, stop: nat, last: nat,
      at: nat, lists: set<string>)
    requires Writable(key, value) && Unset(ls, key) && Section(ls, key.table, h, stop, last)
    requires h <= at < stop && Placeholder(ls[at], key.leaf)
    ensures ReadsAs(ls, Apply(ls, Replace(at, SettingLine(key.leaf, value))), Settings(ls)[key := value], lists)
  {
    hide Meant, ReadFrom, OnceFrom, Placeholder;
    var pre, x, post := ls[..at], ls[at], ls[at + 1..];
    PlaceholderIsComment(x, key.leaf);
    TableStays(ls, key.table, h, stop, last, at);
    LinesAround(ls, at);
    Around(pre, x, post, lists);
    ReadOne(ReadFrom(UNREAD, pre), x, lists);
    MeantSetting(key.leaf, value);
    UnsetIff(ls, key);
    SettingComes(pre, SettingLine(key.leaf, value), post, ls, lists);
  }

  lemma {:induction false} FinishedReads(r: Reading, ls: seq<string>, lists: set<string>)
    ensures ReadFrom(r, Finished(ls)) == ReadFrom(r, ls)
    ensures OnceFrom(r, Finished(ls), lists) <==> OnceFrom(r, ls, lists)
  {
    if ls != [] && !Ended(ls[|ls| - 1]) {
      hide Meant;
      var init, last := ls[..|ls| - 1], ls[|ls| - 1];
      MeantFinished(last);
      assert Finished(ls)[..|ls| - 1] == init;
    }
  }

  /** A setting written after the last one of its section. */
  lemma {:induction false} InsertReads(ls: seq<string>, key: Key, value: string, h: nat, stop: nat, last: nat,
      lists: set<string>)
    requires Writable(key, value) && Unset(ls, key) && Section(ls, key.table, h, stop, last)
    ensures ReadsAs(ls, Apply(ls, Insert(last + 1, SettingLine(key.leaf, value))), Settings(ls)[key := value], lists)
  {
    hide Meant, ReadFrom, OnceFrom;
    var pre, post := ls[..last + 1], ls[last + 1..];
    FinishedReads(UNREAD, pre, lists);
    TableStays(ls, key.table, h, stop, last, last + 1);
    assert ls == pre + post;
    ReadConcat(UNREAD, pre, post);
    OnceConcat(UNREAD, pre, post, lists);
    MeantSetting(key.leaf, value);
    UnsetIff(ls, key);
    SettingComes(Finished(pre), SettingLine(key.leaf, value), post, ls, lists);
  }

  /** A section written after everything else. */
  lemma {:induction false} AddSectionReads(ls: seq<string>, key: Key, value: string, lists: set<string>)
    requires Writable(key, value) && Unset(ls, key)
    ensures ReadsAs(ls, Apply(ls, AddSection(key.table, SettingLine(key.leaf, value))), Settings(ls)[key := value],
              lists)
  {
    hide Meant, OnceFrom;
    var gap := if ls == [] then [] else ["\n"];
    var line := SettingLine(key.leaf, value);
    var pre := Finished(ls) + gap + [HeadingLine(key.table)];
    FinishedReads(UNREAD, ls, lists);
    MeantBlank();
    MeantHeading(key.table);
    MeantSetting(key.leaf, value);
    UnsetIff(ls, key);
    GapReads(ls, gap, HeadingLine(key.table), key.table, lists);
    assert pre + [line] + [] == Apply(ls, AddSection(key.table, line));
    NothingMore(ReadFrom(UNREAD, pre), lists);
    HeadingReads(ls, pre, key, value, lists);
  }

  lemma {:induction false} NothingMore(r: Reading, lists: set<string>)
    ensures ReadFrom(r, []) == r && OnceFrom(r, [], lists)
  {
  }

  lemma {:induction false} GapReads(ls: seq<string>, gap: seq<string>, heading: string, table: string,
      lists: set<string>)
    requires gap == [] || (gap == ["\n"] && Meant("\n") == Blank)
    requires Meant(heading) == Heading(table)
    ensures ReadFrom(UNREAD, Finished(ls) + gap + [heading]) == Reading(table, Settings(ls))
    ensures OnceFrom(UNREAD, Finished(ls) + gap + [heading], lists) <==> OnceFrom(UNREAD, ls, lists)
  {
    hide Meant, ReadFrom, OnceFrom;
    FinishedReads(UNREAD, ls, lists);
    ReadConcat(UNREAD, Finished(ls) + gap, [heading]);
    ReadConcat(UNREAD, Finished(ls), gap);
    OnceConcat(UNREAD, Finished(ls) + gap, [heading], lists);
    OnceConcat(UNREAD, Finished(ls), gap, lists);
    NothingMore(ReadFrom(UNREAD, ls), lists);
    ReadOne(ReadFrom(UNREAD, ls), "\n", lists);
    ReadOne(ReadFrom(UNREAD, Finished(ls) + gap), heading, lists);
  }

  lemma {:induction false} HeadingReads(ls: seq<string>, pre: seq<string>, key: Key, value: string, lists: set<string>)
    requires ReadFrom(UNREAD, pre) == Reading(key.table, Settings(ls)) && key !in Settings(ls)
    requires OnceFrom(UNREAD, pre, lists) <==> OnceFrom(UNREAD, ls, lists)
    requires Meant(SettingLine(key.leaf, value)) == Setting(key.leaf, value)
    ensures ReadsAs(ls, pre + [SettingLine(key.leaf, value)] + [], Settings(ls)[key := value], lists)
  {
    hide Meant, ReadFrom, OnceFrom;
    var y := SettingLine(key.leaf, value);
    Around(pre, y, [], lists);
    ReadOne(ReadFrom(UNREAD, pre), y, lists);
    NothingMore(ReadLine(ReadFrom(UNREAD, pre), y), lists);
  }

  lemma {:induction false} NewSettingAt(ls: seq<string>, key: Key, value: string, h: nat, stop: nat, last: nat,
      e: LineEdit,
                                        lists: set<string>)
    requires Writable(key, value) && Unset(ls, key) && Fits(ls, e) && Section(ls, key.table, h, stop, last)
    requires GoesIn(ls, key.leaf, SettingLine(key.leaf, value), h, stop, last, e)
    ensures ReadsAs(ls, Apply(ls, e), Settings(ls)[key := value], lists)
  {
    hide Meant, ReadFrom, OnceFrom, Placeholder, Unset, Writable, ReadsAs, IsHeading, IsTrailer;
    if e.Replace? {
      PlaceholderReads(ls, key, value, h, stop, last, e.at, lists);
    } else {
      InsertReads(ls, key, value, h, stop, last, lists);
    }
  }

  lemma {:induction false} NewSettingReads(ls: seq<string>, key: Key, value: string, e: LineEdit, lists: set<string>)
    requires Writable(key, value) && Unset(ls, key) && !NoHeading(ls, key.table)
    requires Fits(ls, e) && Asked(ls, key, value, false, e)
    ensures ReadsAs(ls, Apply(ls, e), Settings(ls)[key := value], lists)
  {
    hide Meant, ReadFrom, OnceFrom, NoHeading, Unset, Writable, ReadsAs, IsHeading, IsTrailer, SetAt, Placeholder,
        Apply;
    var line := SettingLine(key.leaf, value);
    var h: nat, stop: nat, last: nat :| Section(ls, key.table, h, stop, last)
        && GoesIn(ls, key.leaf, line, h, stop, last, e);
    NewSettingAt(ls, key, value, h, stop, last, e, lists);
  }

  /** Every edit reads back as the old settings with just that key updated or gone. */
  lemma {:induction false} EditReads(ls: seq<string>, key: Key, value: string, remove: bool, e: LineEdit,
      lists: set<string>)
    requires Writable(key, value) && OnceFrom(UNREAD, ls, lists)
    requires Fits(ls, e) && Asked(ls, key, value, remove, e)
    requires !Listed(key.table, lists)
    ensures ReadsAs(ls, Apply(ls, e), Wanted(Settings(ls), key, value, remove), lists)
  {
    hide Meant, ReadFrom, OnceFrom, Placeholder, NoHeading, Unset, Writable, Section, GoesIn;
    UnsetIff(ls, key);
    if !Unset(ls, key) {
      ReplacingReads(ls, key, value, remove, e, lists);
    } else if remove {
      assert Settings(ls) - {key} == Settings(ls);
    } else if NoHeading(ls, key.table) {
      AddSectionReads(ls, key, value, lists);
    } else {
      NewSettingReads(ls, key, value, e, lists);
    }
  }

  /** A text written as a basic string is a value that fits on a line. */
  lemma {:induction false} QuotedIsPlain(s: string)
    ensures Plain(TomlString.Quoted(s))
  {
    TomlString.QuotedIsOneLine(s);
    var q := TomlString.Quoted(s);
    assert forall i :: 0 <= i < |q| ==> q[i] in q;
  }

  /** A text given to a setting is what reading the setting gives back, whatever is in it. */
  lemma {:induction false} TextReadsBack(ls: seq<string>, key: Key, s: string, e: LineEdit, lists: set<string>)
    requires BareTable(key.table) && BareKey(key.leaf) && OnceFrom(UNREAD, ls, lists)
    requires Fits(ls, e) && Asked(ls, key, TomlString.Quoted(s), false, e)
    requires !Listed(key.table, lists)
    ensures key in Settings(Apply(ls, e)) && TomlString.Read(Settings(Apply(ls, e))[key]) == Some(s)
  {
    hide ReadFrom, OnceFrom, Meant, Asked;
    QuotedIsPlain(s);
    EditReads(ls, key, TomlString.Quoted(s), false, e, lists);
    TomlString.QuotedRoundTrip(s);
  }
}
