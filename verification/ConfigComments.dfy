/** The comments of a text: which of them an edit takes away, and that every other one stays where it was. */
module ConfigComments {
  import opened Wrappers
  import opened ConfigText
  import opened ConfigEdit
  import opened ConfigReading
  import opened ConfigTidy
  import opened ConfigLists
  import opened ConfigListReading

  // ---- comments and settings switched off, on the characters ---------------------------------

  ghost predicate Blanks(s: string) {
    forall i :: 0 <= i < |s| ==> s[i] == ' ' || s[i] == '\t'
  }

  ghost predicate OffAs(line: string, leaf: string, a: string, b: string, c: string, rest: string) {
    Blanks(a) && Blanks(b) && Blanks(c) && line == a + "#" + b + leaf + c + "=" + rest
  }

  /** Blanks, `#`, blanks, the name, blanks and `=`: a setting of that name, commented out. */
  ghost predicate SwitchedOff(line: string, leaf: string) {
    exists a, b, c, rest :: OffAs(line, leaf, a, b, c, rest)
  }

  lemma {:induction false} BlankSplit(s: string) returns (a: string)
    ensures Blanks(a) && s == a + SkipBlank(s)
  {
    a := "";
    if s != "" && (s[0] == ' ' || s[0] == '\t') {
      var b := BlankSplit(s[1..]);
      a := [s[0]] + b;
    }
  }

  lemma {:induction false} BlankOver(a: string, t: string)
    requires Blanks(a) && t != "" && t[0] != ' ' && t[0] != '\t'
    ensures SkipBlank(a + t) == t
  {
    if a == "" {
      assert a + t == t;
    } else {
      assert (a + t)[1..] == a[1..] + t;
      BlankOver(a[1..], t);
    }
  }

  /** A line counts as holding a setting's place exactly when it is that setting commented out. */
  lemma {:induction false} PlaceholderIff(line: string, leaf: string)
    requires BareKey(leaf)
    ensures Placeholder(line, leaf) <==> SwitchedOff(line, leaf)
  {
    hide SkipBlank;
    if Placeholder(line, leaf) {
      var a := BlankSplit(line);
      var s := SkipBlank(line);
      var b := BlankSplit(s[1..]);
      var t := SkipBlank(s[1..]);
      var c := BlankSplit(t[|leaf|..]);
      var u := SkipBlank(t[|leaf|..]);
      assert s == "#" + s[1..] && t == leaf + t[|leaf|..] && u == "=" + u[1..];
      assert line == a + "#" + b + leaf + c + "=" + u[1..];
      assert OffAs(line, leaf, a, b, c, u[1..]);
    }
    if a, b, c, rest :| OffAs(line, leaf, a, b, c, rest) {
      var u := "=" + rest;
      var t := leaf + (c + u);
      var s := "#" + (b + t);
      assert line == a + s;
      BlankOver(a, s);
      assert s[1..] == b + t;
      assert t[0] == leaf[0] && BareChar(leaf[0]);
      BlankOver(b, t);
      assert t[|leaf|..] == c + u;
      BlankOver(c, u);
    }
  }

  ghost predicate CommentAs(line: string, a: string, rest: string) {
    (forall i :: 0 <= i < |a| ==> Space(a[i])) && line == a + "#" + rest
  }

  lemma {:induction false} SpaceSplit(s: string) returns (a: string)
    ensures (forall i :: 0 <= i < |a| ==> Space(a[i])) && s == a + SkipSpace(s)
  {
    a := "";
    if s != "" && Space(s[0]) {
      var b := SpaceSplit(s[1..]);
      a := [s[0]] + b;
    }
  }

  lemma {:induction false} SpaceOver(a: string, t: string)
    requires (forall i :: 0 <= i < |a| ==> Space(a[i])) && t != "" && !Space(t[0])
    ensures SkipSpace(a + t) == t
  {
    if a == "" {
      assert a + t == t;
    } else {
      assert (a + t)[1..] == a[1..] + t;
      SpaceOver(a[1..], t);
    }
  }

  /** A line is a comment exactly when `#` is the first thing on it. */
  lemma {:induction false} CommentIff(line: string)
    ensures Meant(line).Comment? <==> exists a, rest :: CommentAs(line, a, rest)
  {
    hide SkipSpace, DropSpace;
    var a := SpaceSplit(line);
    var s := SkipSpace(line);
    if s != "" {
      DropKeepsFirst(s);
      assert s == [s[0]] + s[1..];
      if s[0] == '#' {
        assert line == a + "#" + s[1..];
        assert CommentAs(line, a, s[1..]);
      }
    } else {
      NothingDrops();
    }
    if b, rest :| CommentAs(line, b, rest) {
      assert line == b + ("#" + rest);
      SpaceOver(b, "#" + rest);
    }
  }

  lemma {:induction false} NothingDrops()
    ensures DropSpace("") == ""
  {
  }

  /** A line without its newline. */
  function Shorn(line: string): string {
    if Ended(line) then line[..|line| - 1] else line
  }

  lemma {:induction false} ShornOff(line: string, leaf: string)
    requires SwitchedOff(line, leaf)
    ensures SwitchedOff(Shorn(line), leaf)
  {
    var a, b, c, rest :| OffAs(line, leaf, a, b, c, rest);
    if Ended(line) {
      assert rest != "";
      assert OffAs(Shorn(line), leaf, a, b, c, rest[..|rest| - 1]);
    }
  }

  // ---- what one edit takes away -----------------------------------------------------------------

  /** The first line of the section that is the setting commented out. */
  ghost predicate FirstOff(ls: seq<string>, leaf: string, h: nat, stop: nat, p: nat) {
    h <= p < stop <= |ls| && SwitchedOff(ls[p], leaf) && forall i :: h <= i < p ==> !SwitchedOff(ls[i], leaf)
  }

  /** The line is the first in its section that is the setting commented out. */
  ghost predicate HeldAt(ls: seq<string>, key: Key, p: nat) {
    exists h: nat, stop: nat, last: nat ::
      Section(ls, key.table, h, stop, last) && FirstOff(ls, key.leaf, h, stop, p)
  }

  /** The one line an edit takes away set the key, or is the setting commented out, in its section; and if there
      are several of the latter it is the first. */
  lemma {:induction false} TakesAway(ls: seq<string>, key: Key, value: string, remove: bool, e: LineEdit)
    requires Writable(key, value) && Fits(ls, e) && Asked(ls, key, value, remove, e)
    ensures !Unset(ls, key) ==> e.Replace? && Sets(ls, e.at, key)
    ensures Unset(ls, key) ==> (e.Replace? <==> !remove && exists p: nat :: HeldAt(ls, key, p))
    ensures Unset(ls, key) && e.Replace? ==> forall p: nat :: HeldAt(ls, key, p) <==> p == e.at
  {
    hide Meant, Sets, Placeholder, SwitchedOff, SettingLine;
    if Unset(ls, key) && !remove {
      forall p: nat | HeldAt(ls, key, p) ensures e.Replace? && e.at == p {
        var h: nat, stop: nat, last: nat :| Section(ls, key.table, h, stop, last)
            && FirstOff(ls, key.leaf, h, stop, p);
        HeldIsReplaced(ls, key, value, e, h, stop, last, p);
      }
      if e.Replace? {
        ReplacedIsHeld(ls, key, value, e);
      }
    }
  }

  lemma {:induction false} HeldIsReplaced(ls: seq<string>, key: Key, value: string, e: LineEdit, h: nat, stop: nat,
      last: nat, p: nat)
    requires Writable(key, value) && Fits(ls, e) && Asked(ls, key, value, false, e) && Unset(ls, key)
    requires Section(ls, key.table, h, stop, last) && FirstOff(ls, key.leaf, h, stop, p)
    ensures e.Replace? && e.at == p
  {
    hide Meant, Sets, Placeholder, SwitchedOff, SettingLine;
    SectionInside(ls, key.table, h, stop, last);
    var h': nat, stop': nat, last': nat :| Section(ls, key.table, h', stop', last')
        && GoesIn(ls, key.leaf, SettingLine(key.leaf, value), h', stop', last', e);
    OneSection(ls, key.table, h, stop, last, h', stop', last');
    OffLines(ls, key.leaf, h, stop);
  }

  lemma {:induction false} ReplacedIsHeld(ls: seq<string>, key: Key, value: string, e: LineEdit)
    requires Writable(key, value) && Fits(ls, e) && Asked(ls, key, value, false, e) && Unset(ls, key) && e.Replace?
    ensures HeldAt(ls, key, e.at)
  {
    hide Meant, Sets, Placeholder, SwitchedOff, SettingLine;
    var h: nat, stop: nat, last: nat :| Section(ls, key.table, h, stop, last)
        && GoesIn(ls, key.leaf, SettingLine(key.leaf, value), h, stop, last, e);
    OffLines(ls, key.leaf, h, stop);
    assert FirstOff(ls, key.leaf, h, stop, e.at);
  }

  lemma {:induction false} OffLines(ls: seq<string>, leaf: string, h: nat, stop: nat)
    requires h <= stop <= |ls| && BareKey(leaf)
    ensures forall i :: h <= i < stop ==> (Placeholder(ls[i], leaf) <==> SwitchedOff(ls[i], leaf))
  {
    hide Placeholder, SwitchedOff;
    forall i | h <= i < stop ensures Placeholder(ls[i], leaf) <==> SwitchedOff(ls[i], leaf) {
      PlaceholderIff(ls[i], leaf);
    }
  }

  // ---- the comments of a text ------------------------------------------------------------------

  /** The comments, in order. */
  function Comments(ls: seq<string>): seq<string> {
    if ls == [] then []
    else
      var before := Comments(ls[..|ls| - 1]);
      if Meant(ls[|ls| - 1]).Comment? then before + [Shorn(ls[|ls| - 1])] else before
  }

  lemma {:induction false} CommentsConcat(a: seq<string>, b: seq<string>)
    ensures Comments(a + b) == Comments(a) + Comments(b)
  {
    hide Meant;
    if b == [] {
      assert a + b == a;
    } else {
      assert (a + b)[..|a + b| - 1] == a + b[..|b| - 1];
      CommentsConcat(a, b[..|b| - 1]);
    }
  }

  lemma {:induction false} CommentsOne(line: string)
    ensures Comments([line]) == if Meant(line).Comment? then [Shorn(line)] else []
    ensures Comments([]) == []
  {
    hide Meant;
    assert [line][..0] == [];
  }

  lemma {:induction false} CommentsFinished(ls: seq<string>)
    ensures Comments(Finished(ls)) == Comments(ls)
  {
    hide Meant;
    if ls != [] && !Ended(ls[|ls| - 1]) {
      var line := ls[|ls| - 1];
      MeantFinished(line);
      assert Finished(ls)[..|ls| - 1] == ls[..|ls| - 1];
      assert (line + "\n")[..|line|] == line;
    }
  }

  lemma {:induction false} CommentsAround(pre: seq<string>, x: string, post: seq<string>)
    ensures Comments(pre + [x] + post) == Comments(pre) + Comments([x]) + Comments(post)
  {
    hide Comments;
    CommentsConcat(pre + [x], post);
    CommentsConcat(pre, [x]);
  }

  /** Every comment but one that held the setting's place is still there, in order; taking a setting back puts one
      where it was. */
  lemma {:induction false} EditKeepsComments(ls: seq<string>, key: Key, value: string, remove: bool, e: LineEdit)
    requires Writable(key, value) && Fits(ls, e) && Asked(ls, key, value, remove, e)
    ensures var was, now, off := Comments(ls), Comments(Apply(ls, e)), "# " + key.leaf + " = " + value;
            if e.Replace? && Unset(ls, key) then
              was == Comments(ls[..e.at]) + [Shorn(ls[e.at])] + Comments(ls[e.at + 1..]) &&
              now == Comments(ls[..e.at]) + Comments(ls[e.at + 1..]) && HeldAt(ls, key, e.at)
            else if e.Replace? && remove then
              was == Comments(ls[..e.at]) + Comments(ls[e.at + 1..]) &&
              now == Comments(ls[..e.at]) + [off] + Comments(ls[e.at + 1..]) && Sets(ls, e.at, key)
            else now == was
  {
    hide Meant, Comments, Placeholder, SwitchedOff, SettingLine, HeldAt, NoHeading, ReadFrom;
    MeantSetting(key.leaf, value);
    MeantComment(key.leaf, value);
    TakesAway(ls, key, value, remove, e);
    match e {
      case Keep =>
      case Replace(at, line) =>
        CommentsOne(ls[at]);
        CommentsOne(line);
        LinesAround(ls, at);
        CommentsAround(ls[..at], ls[at], ls[at + 1..]);
        CommentsAround(ls[..at], line, ls[at + 1..]);
        SettingOff(key.leaf, value);
        if Unset(ls, key) {
          HeldIsComment(ls, key, at);
        }
      case Insert(at, line) => InsertKeepsComments(ls, at, line);
      case AddSection(table, line) =>
        SectionHasNone(ls, key, value);
    }
  }

  lemma {:induction false} InsertKeepsComments(ls: seq<string>, at: nat, line: string)
    requires 0 < at <= |ls| && !Meant(line).Comment?
    ensures Comments(Apply(ls, Insert(at, line))) == Comments(ls)
  {
    hide Meant, Comments;
    CommentsOne(line);
    CommentsFinished(ls[..at]);
    CommentsAround(Finished(ls[..at]), line, ls[at..]);
    assert ls == ls[..at] + ls[at..];
    CommentsConcat(ls[..at], ls[at..]);
  }

  lemma {:induction false} HeldIsComment(ls: seq<string>, key: Key, p: nat)
    requires HeldAt(ls, key, p) && BareKey(key.leaf)
    ensures p < |ls| && Meant(ls[p]).Comment?
  {
    hide Meant, Placeholder, SwitchedOff;
    PlaceholderIff(ls[p], key.leaf);
    PlaceholderIsComment(ls[p], key.leaf);
  }

  lemma {:induction false} SettingOff(leaf: string, value: string)
    ensures Shorn("# " + SettingLine(leaf, value)) == "# " + leaf + " = " + value
    ensures SwitchedOff("# " + leaf + " = " + value, leaf)
  {
    var line := "# " + leaf + " = " + value;
    assert "# " + SettingLine(leaf, value) == line + "\n";
    assert OffAs(line, leaf, "", " ", " ", " " + value);
  }

  lemma {:induction false} SectionHasNone(ls: seq<string>, key: Key, value: string)
    requires Writable(key, value)
    ensures Comments(Apply(ls, AddSection(key.table, SettingLine(key.leaf, value)))) == Comments(ls)
  {
    hide Meant, Comments, HeadingLine, SettingLine;
    var gap, heading, line := if ls == [] then [] else ["\n"], HeadingLine(key.table), SettingLine(key.leaf, value);
    MeantSetting(key.leaf, value);
    MeantHeading(key.table);
    MeantBlank();
    CommentsOne("\n");
    CommentsOne(heading);
    CommentsOne(line);
    CommentsFinished(ls);
    CommentsConcat(Finished(ls), gap);
    CommentsConcat(Finished(ls) + gap, [heading, line]);
    assert [heading] + [line] == [heading, line];
    CommentsConcat([heading], [line]);
  }

  // ---- remarks: the comments a patch has no business with --------------------------------------------

  /** A comment that is none of some settings commented out. */
  ghost predicate IsRemark(line: string, leaves: set<string>) {
    Meant(line).Comment? && forall leaf :: leaf in leaves ==> !SwitchedOff(Shorn(line), leaf)
  }

  /** The section being read, the remarks so far, and those that are yet to be followed by something. */
  datatype Remarks = Remarks(table: string, done: seq<string>, pending: seq<string>) {
    function All(): seq<string> {
      done + pending
    }
  }

  const UNREMARKED := Remarks("", [], [])

  /** A comment inside an element of a list goes with it, and one followed by a heading or by nothing is outside. */
  ghost function RemarkLine(st: Remarks, line: string, lists: set<string>, leaves: set<string>): Remarks {
    match Meant(line)
    case Blank => st
    case Comment => if IsRemark(line, leaves) then st.(pending := st.pending + [Shorn(line)]) else st
    case Heading(name) => Remarks(name, st.All(), [])
    case ListHeading(name) => Remarks(name, st.All(), [])
    case _ => Remarks(st.table, if Listed(st.table, lists) then st.done else st.All(), [])
  }

  ghost function RemarksFrom(st: Remarks, ls: seq<string>, lists: set<string>, leaves: set<string>): Remarks {
    if ls == [] then st
    else RemarkLine(RemarksFrom(st, ls[..|ls| - 1], lists, leaves), ls[|ls| - 1], lists, leaves)
  }

  /** The remarks of a text outside the elements of its lists, in order. */
  ghost function RemarksOf(ls: seq<string>, lists: set<string>, leaves: set<string>): seq<string> {
    RemarksFrom(UNREMARKED, ls, lists, leaves).All()
  }

  lemma {:induction false} RemarksConcat(st: Remarks, a: seq<string>, b: seq<string>, lists: set<string>,
      leaves: set<string>)
    ensures RemarksFrom(st, a + b, lists, leaves)
              == RemarksFrom(RemarksFrom(st, a, lists, leaves), b, lists, leaves)
  {
    if b == [] {
      assert a + b == a;
    } else {
      assert (a + b)[..|a + b| - 1] == a + b[..|b| - 1];
      RemarksConcat(st, a, b[..|b| - 1], lists, leaves);
    }
  }

  lemma {:induction false} RemarksOne(st: Remarks, x: string, lists: set<string>, leaves: set<string>)
    ensures RemarksFrom(st, [x], lists, leaves) == RemarkLine(st, x, lists, leaves)
    ensures RemarksFrom(st, [], lists, leaves) == st
  {
    assert [x][..0] == [];
  }

  lemma {:induction false} RemarksFirst(st: Remarks, x: string, rest: seq<string>, lists: set<string>,
      leaves: set<string>)
    ensures RemarksFrom(st, [x] + rest, lists, leaves)
              == RemarksFrom(RemarkLine(st, x, lists, leaves), rest, lists, leaves)
  {
    hide Meant, IsRemark;
    RemarksConcat(st, [x], rest, lists, leaves);
    RemarksOne(st, x, lists, leaves);
  }

  lemma {:induction false} RemarksTable(ls: seq<string>, lists: set<string>, leaves: set<string>)
    ensures RemarksFrom(UNREMARKED, ls, lists, leaves).table == ReadFrom(UNREAD, ls).table
  {
    hide Meant, IsRemark, Listed;
    if ls != [] {
      RemarksTable(ls[..|ls| - 1], lists, leaves);
    }
  }

  // ---- what counts as one ----------------------------------------------------------------------

  /** In a text that has no elements of lists the remarks are all the comments that are none of the settings. */
  lemma {:induction false} RemarksAreComments(ls: seq<string>, lists: set<string>)
    requires !Listed("", lists)
    requires forall i :: 0 <= i < |ls| && IsHeading(ls[i]) ==> !Listed(Meant(ls[i]).name, lists)
    ensures RemarksOf(ls, lists, {}) == Comments(ls)
    ensures !Listed(RemarksFrom(UNREMARKED, ls, lists, {}).table, lists)
  {
    hide Meant, Listed;
    if ls != [] {
      var init := ls[..|ls| - 1];
      assert forall i :: 0 <= i < |init| ==> init[i] == ls[i];
      RemarksAreComments(init, lists);
    }
  }

  lemma {:induction false} StaysIn(st: Remarks, ls: seq<string>, i: nat, x: string, lists: set<string>,
      leaves: set<string>)
    requires i <= |ls|
    requires x in st.done || (x in st.pending && (Trailing(ls, i) || !Listed(st.table, lists)))
    ensures x in RemarksFrom(st, ls[i..], lists, leaves).All()
    decreases |ls| - i
  {
    hide Meant, Listed, IsRemark;
    if i == |ls| {
      assert ls[i..] == [];
    } else {
      assert ls[i..] == [ls[i]] + ls[i + 1..];
      RemarksFirst(st, ls[i], ls[i + 1..], lists, leaves);
      StaysIn(RemarkLine(st, ls[i], lists, leaves), ls, i + 1, x, lists, leaves);
    }
  }

  /** A comment that is none of the settings is a remark if it is outside the lists, or has nothing but blanks and
      comments up to the next heading. */
  lemma {:induction false} RemarksAreOutside(ls: seq<string>, i: nat, lists: set<string>, leaves: set<string>)
    requires i < |ls| && Meant(ls[i]).Comment? && (Trailing(ls, i) || !Listed(TableAt(ls, i), lists))
    requires forall leaf :: leaf in leaves ==> !SwitchedOff(Shorn(ls[i]), leaf)
    ensures Shorn(ls[i]) in RemarksOf(ls, lists, leaves)
  {
    hide Meant, Listed, SwitchedOff, RemarksFrom;
    var st := RemarksFrom(UNREMARKED, ls[..i], lists, leaves);
    RemarksTable(ls[..i], lists, leaves);
    LinesAround(ls, i);
    RemarksConcat(UNREMARKED, ls[..i] + [ls[i]], ls[i + 1..], lists, leaves);
    RemarksConcat(UNREMARKED, ls[..i], [ls[i]], lists, leaves);
    RemarksOne(st, ls[i], lists, leaves);
    StaysIn(RemarkLine(st, ls[i], lists, leaves), ls, i + 1, Shorn(ls[i]), lists, leaves);
  }

  // ---- two readings that come to the same ---------------------------------------------------------------

  /** The same remarks so far; where one reading could lose some that the other would not, neither loses any. */
  ghost predicate Level(st: Remarks, q: Remarks, ls: seq<string>, i: nat, lists: set<string>) {
    && st.All() == q.All()
    && (Trailing(ls, i) || (st.table == q.table && (Listed(st.table, lists) ==> st == q)))
  }

  lemma {:induction false} LevelLine(st: Remarks, q: Remarks, ls: seq<string>, i: nat, lists: set<string>,
      leaves: set<string>)
    requires i < |ls| && Level(st, q, ls, i, lists)
    ensures Level(RemarkLine(st, ls[i], lists, leaves), RemarkLine(q, ls[i], lists, leaves), ls, i + 1, lists)
  {
    hide Meant, Listed, IsRemark;
    var x := Shorn(ls[i]);
    assert st.done + (st.pending + [x]) == st.All() + [x];
    assert q.done + (q.pending + [x]) == q.All() + [x];
  }

  lemma {:induction false} LevelOn(st: Remarks, q: Remarks, ls: seq<string>, i: nat, lists: set<string>,
      leaves: set<string>)
    requires i <= |ls| && Level(st, q, ls, i, lists)
    ensures RemarksFrom(st, ls[i..], lists, leaves).All() == RemarksFrom(q, ls[i..], lists, leaves).All()
    decreases |ls| - i
  {
    hide Meant, Listed, IsRemark, Trailing, RemarkLine;
    if i == |ls| {
      assert ls[i..] == [];
    } else {
      LevelLine(st, q, ls, i, lists, leaves);
      assert ls[i..] == [ls[i]] + ls[i + 1..];
      RemarksFirst(st, ls[i], ls[i + 1..], lists, leaves);
      RemarksFirst(q, ls[i], ls[i + 1..], lists, leaves);
      LevelOn(RemarkLine(st, ls[i], lists, leaves), RemarkLine(q, ls[i], lists, leaves), ls, i + 1, lists, leaves);
    }
  }

  // ---- the edit of one setting ---------------------------------------------------------------------------

  /** A line under a section outside the lists that adds no remark: another setting, or one commented out. */
  ghost predicate Mute(line: string, leaves: set<string>) {
    !IsHeading(line) && !IsRemark(line, leaves)
  }

  lemma {:induction false} MuteLine(st: Remarks, line: string, lists: set<string>, leaves: set<string>)
    requires Mute(line, leaves) && !Listed(st.table, lists)
    ensures RemarkLine(st, line, lists, leaves).All() == st.All()
    ensures RemarkLine(st, line, lists, leaves).table == st.table
  {
    hide Meant, Listed;
  }

  lemma {:induction false} RemarksFinished(ls: seq<string>, lists: set<string>, leaves: set<string>)
    ensures RemarksFrom(UNREMARKED, Finished(ls), lists, leaves) == RemarksFrom(UNREMARKED, ls, lists, leaves)
    ensures RemarksFrom(UNREMARKED, Finished(ls) + ["\n"], lists, leaves)
              == RemarksFrom(UNREMARKED, ls, lists, leaves)
  {
    hide Meant, Listed, SwitchedOff;
    if ls != [] && !Ended(ls[|ls| - 1]) {
      var line := ls[|ls| - 1];
      MeantFinished(line);
      assert Finished(ls)[..|ls| - 1] == ls[..|ls| - 1];
      assert (line + "\n")[..|line|] == line;
    }
    MeantBlank();
    RemarksConcat(UNREMARKED, Finished(ls), ["\n"], lists, leaves);
    RemarksOne(RemarksFrom(UNREMARKED, Finished(ls), lists, leaves), "\n", lists, leaves);
  }

  lemma {:induction false} MuteAround(pre: seq<string>, x: string, post: seq<string>, lists: set<string>,
      leaves: set<string>)
    requires Mute(x, leaves) && !Listed(ReadFrom(UNREAD, pre).table, lists)
    ensures RemarksOf(pre + [x] + post, lists, leaves) == RemarksOf(pre + post, lists, leaves)
  {
    hide Meant, Listed, Mute, RemarksFrom, ReadFrom, RemarkLine;
    var st := RemarksFrom(UNREMARKED, pre, lists, leaves);
    RemarksTable(pre, lists, leaves);
    RemarksConcat(UNREMARKED, pre + [x], post, lists, leaves);
    RemarksConcat(UNREMARKED, pre, [x], lists, leaves);
    RemarksOne(st, x, lists, leaves);
    MuteLine(st, x, lists, leaves);
    RemarksConcat(UNREMARKED, pre, post, lists, leaves);
    LevelOn(st, RemarkLine(st, x, lists, leaves), post, 0, lists, leaves);
    assert post[0..] == post;
  }

  lemma {:induction false} ReplaceKeepsRemarks(ls: seq<string>, at: nat, line: string, lists: set<string>,
      leaves: set<string>)
    requires at < |ls| && Mute(ls[at], leaves) && Mute(line, leaves) && !Listed(TableAt(ls, at), lists)
    ensures RemarksOf(Apply(ls, Replace(at, line)), lists, leaves) == RemarksOf(ls, lists, leaves)
  {
    hide Meant, Listed, Mute, RemarksOf, ReadFrom;
    LinesAround(ls, at);
    MuteAround(ls[..at], ls[at], ls[at + 1..], lists, leaves);
    MuteAround(ls[..at], line, ls[at + 1..], lists, leaves);
  }

  lemma {:induction false} InsertKeepsRemarks(ls: seq<string>, at: nat, line: string, lists: set<string>,
      leaves: set<string>)
    requires 0 < at <= |ls| && Mute(line, leaves) && !Listed(TableAt(ls, at), lists)
    ensures RemarksOf(Apply(ls, Insert(at, line)), lists, leaves) == RemarksOf(ls, lists, leaves)
  {
    hide Meant, Listed, Mute, RemarksFrom, ReadFrom;
    var pre := ls[..at];
    FinishedReads(UNREAD, pre, {});
    MuteAround(Finished(pre), line, ls[at..], lists, leaves);
    RemarksFinished(pre, lists, leaves);
    RemarksConcat(UNREMARKED, Finished(pre), ls[at..], lists, leaves);
    RemarksConcat(UNREMARKED, pre, ls[at..], lists, leaves);
    assert ls == pre + ls[at..];
  }

  lemma {:induction false} AddSectionKeepsRemarks(ls: seq<string>, key: Key, value: string, lists: set<string>,
      leaves: set<string>)
    requires Writable(key, value) && !Listed(key.table, lists)
    ensures RemarksOf(Apply(ls, AddSection(key.table, SettingLine(key.leaf, value))), lists, leaves)
              == RemarksOf(ls, lists, leaves)
  {
    hide Meant, Listed, RemarksFrom, ReadFrom, HeadingLine, SettingLine, SwitchedOff;
    var gap, heading, line := if ls == [] then [] else ["\n"], HeadingLine(key.table), SettingLine(key.leaf, value);
    MeantSetting(key.leaf, value);
    MeantHeading(key.table);
    RemarksFinished(ls, lists, leaves);
    assert Finished(ls) + [] == Finished(ls);
    var st := RemarksFrom(UNREMARKED, Finished(ls) + gap, lists, leaves);
    RemarksConcat(UNREMARKED, Finished(ls) + gap, [heading, line], lists, leaves);
    RemarksFirst(st, heading, [line], lists, leaves);
    assert [heading] + [line] == [heading, line];
    RemarksOne(RemarkLine(st, heading, lists, leaves), line, lists, leaves);
  }

  lemma {:induction false} WrittenAreMute(key: Key, value: string, leaves: set<string>)
    requires Writable(key, value) && key.leaf in leaves
    ensures Mute(SettingLine(key.leaf, value), leaves) && Mute("# " + SettingLine(key.leaf, value), leaves)
  {
    hide SwitchedOff, SettingLine, Meant;
    MeantSetting(key.leaf, value);
    MeantComment(key.leaf, value);
    SettingOff(key.leaf, value);
  }

  /** However one setting is edited, every remark of the text is still there, in order. */
  lemma {:induction false} EditKeepsRemarks(ls: seq<string>, key: Key, value: string, remove: bool, e: LineEdit,
      lists: set<string>, leaves: set<string>)
    requires Writable(key, value) && !Listed(key.table, lists) && key.leaf in leaves
    requires Fits(ls, e) && Asked(ls, key, value, remove, e)
    ensures RemarksOf(Apply(ls, e), lists, leaves) == RemarksOf(ls, lists, leaves)
  {
    hide Meant, Listed, RemarksOf, ReadFrom, NoHeading, Section, GoesIn, Placeholder, Unset, SettingLine,
        SwitchedOff;
    WrittenAreMute(key, value, leaves);
    if !Unset(ls, key) {
      ReplaceKeepsRemarks(ls, e.at, e.line, lists, leaves);
    } else if remove {
    } else if NoHeading(ls, key.table) {
      AddSectionKeepsRemarks(ls, key, value, lists, leaves);
    } else {
      NewKeepsRemarks(ls, key, value, e, lists, leaves);
    }
  }

  lemma {:induction false} PlaceholderIsMute(line: string, leaf: string, leaves: set<string>)
    requires Placeholder(line, leaf) && BareKey(leaf) && leaf in leaves
    ensures Mute(line, leaves) && Meant(line) == Comment
  {
    hide Meant, Placeholder, SwitchedOff;
    PlaceholderIff(line, leaf);
    ShornOff(line, leaf);
    PlaceholderIsComment(line, leaf);
  }

  lemma {:induction false} NewKeepsRemarks(ls: seq<string>, key: Key, value: string, e: LineEdit, lists: set<string>,
      leaves: set<string>)
    requires Writable(key, value) && !Listed(key.table, lists) && key.leaf in leaves
    requires Unset(ls, key) && !NoHeading(ls, key.table) && Fits(ls, e) && Asked(ls, key, value, false, e)
    ensures RemarksOf(Apply(ls, e), lists, leaves) == RemarksOf(ls, lists, leaves)
  {
    hide Meant, Listed, RemarksOf, ReadFrom, NoHeading, Placeholder, Unset, SettingLine, SwitchedOff, Writable,
        IsHeading,
        IsTrailer;
    var h: nat, stop: nat, last: nat :| Section(ls, key.table, h, stop, last)
        && GoesIn(ls, key.leaf, SettingLine(key.leaf, value), h, stop, last, e);
    NewRemarksAt(ls, key, value, e, h, stop, last, lists, leaves);
  }

  lemma {:induction false} NewRemarksAt(ls: seq<string>, key: Key, value: string, e: LineEdit, h: nat, stop: nat,
      last: nat, lists: set<string>, leaves: set<string>)
    requires Writable(key, value) && !Listed(key.table, lists) && key.leaf in leaves && Fits(ls, e)
    requires Section(ls, key.table, h, stop, last)
    requires GoesIn(ls, key.leaf, SettingLine(key.leaf, value), h, stop, last, e)
    ensures RemarksOf(Apply(ls, e), lists, leaves) == RemarksOf(ls, lists, leaves)
  {
    hide Meant, Listed, RemarksOf, ReadFrom, Placeholder, SettingLine, SwitchedOff, Mute, IsHeading, IsTrailer, Apply;
    WrittenAreMute(key, value, leaves);
    if e.Replace? {
      PlaceholderIsMute(ls[e.at], key.leaf, leaves);
      TableStays(ls, key.table, h, stop, last, e.at);
      ReplaceKeepsRemarks(ls, e.at, e.line, lists, leaves);
    } else {
      TableStays(ls, key.table, h, stop, last, last + 1);
      InsertKeepsRemarks(ls, last + 1, e.line, lists, leaves);
    }
  }

  // ---- the edit of a list ---------------------------------------------------------------------------

  ghost predicate NoComment(block: seq<string>) {
    forall i :: 0 <= i < |block| ==> !Meant(block[i]).Comment?
  }

  /** Passing the text of a list: what came before it is settled, and what is pending is inside it. */
  lemma {:induction false} OursPassed(st: Remarks, ls: seq<string>, list: string, lists: set<string>,
      leaves: set<string>)
    requires OursOnly(ls, list) && ls != [] && list in lists
    requires NoComment(ls) || forall i :: 0 < i < |ls| ==> !IsHeading(ls[i])
    ensures var r := RemarksFrom(st, ls, lists, leaves);
            && r.done == st.All() && Belongs(r.table, list)
            && (NoComment(ls) || !IsTrailer(ls[|ls| - 1]) ==> r.pending == [])
  {
    hide Meant, Belongs, SwitchedOff;
    var init, x := ls[..|ls| - 1], ls[|ls| - 1];
    assert forall i :: 0 <= i < |init| ==> init[i] == ls[i];
    if init == [] {
      assert Heads(x, list);
    } else {
      OursPassed(st, init, list, lists, leaves);
    }
  }

  lemma {:induction false} BlockHasNone(st: Remarks, ls: seq<string>, list: string, i: nat, lists: set<string>,
      leaves: set<string>)
    requires i < |ls| && Heads(ls[i], list) && list in lists
    ensures RemarksFrom(st, ls[i..BlockEnd(ls, i)], lists, leaves).All() == st.All()
    ensures Trailing(ls, BlockEnd(ls, i))
  {
    hide Meant, RemarksFrom, Trailing;
    var k := BlockEnd(ls, i);
    var block := ls[i..k];
    assert forall j :: 0 <= j < |block| ==> block[j] == ls[i + j];
    OursPassed(st, block, list, lists, leaves);
    TrailingTo(ls, k, NextHeading(ls, i));
    assert block[|block| - 1] == ls[k - 1];
  }

  /** The lines that are in no block of a list have the remarks of the whole text. */
  lemma {:induction false} KeptRemarks(st: Remarks, q: Remarks, ls: seq<string>, list: string, i: nat,
      lists: set<string>, leaves: set<string>)
    requires i <= |ls| && Level(st, q, ls, i, lists) && list in lists
    ensures RemarksFrom(st, ls[i..], lists, leaves).All() == RemarksFrom(q, KeptFrom(ls, list, i), lists, leaves).All()
    decreases |ls| - i
  {
    hide Meant, Listed, IsRemark, Trailing, RemarkLine;
    if i == |ls| {
      assert ls[i..] == [];
    } else if Heads(ls[i], list) {
      var k := BlockEnd(ls, i);
      BlockHasNone(st, ls, list, i, lists, leaves);
      assert ls[i..] == ls[i..k] + ls[k..];
      RemarksConcat(st, ls[i..k], ls[k..], lists, leaves);
      KeptRemarks(RemarksFrom(st, ls[i..k], lists, leaves), q, ls, list, k, lists, leaves);
    } else {
      LevelLine(st, q, ls, i, lists, leaves);
      assert ls[i..] == [ls[i]] + ls[i + 1..];
      RemarksFirst(st, ls[i], ls[i + 1..], lists, leaves);
      RemarksFirst(q, ls[i], KeptFrom(ls, list, i + 1), lists, leaves);
      KeptRemarks(RemarkLine(st, ls[i], lists, leaves), RemarkLine(q, ls[i], lists, leaves), ls, list, i + 1, lists,
                  leaves);
    }
  }

  lemma {:induction false} NewTextHasNone(st: Remarks, block: seq<string>, list: string, lists: set<string>,
      leaves: set<string>)
    requires OursOnly(block, list) && NoComment(block) && list in lists
    ensures RemarksFrom(st, block, lists, leaves).All() == st.All()
  {
    hide Meant, RemarksFrom;
    RemarksOne(st, "", lists, leaves);
    if block != [] {
      OursPassed(st, block, list, lists, leaves);
    }
  }

  /** New text of a list put before the lines that are left from `k` on. */
  lemma {:induction false} PutIn(head: seq<string>, was: seq<string>, ls: seq<string>, list: string,
      block: seq<string>, k: nat, lists: set<string>, leaves: set<string>)
    requires OursOnly(block, list) && NoComment(block) && list in lists && k <= |ls| && Trailing(ls, k)
    requires RemarksFrom(UNREMARKED, head, lists, leaves).All() == RemarksFrom(UNREMARKED, was, lists, leaves).All()
    ensures RemarksOf(head + block + KeptFrom(ls, list, k), lists, leaves) == RemarksOf(was + ls[k..], lists, leaves)
  {
    hide Meant, KeptFrom, Trailing, RemarksFrom;
    var st := RemarksFrom(UNREMARKED, head, lists, leaves);
    NewTextHasNone(st, block, list, lists, leaves);
    RemarksConcat(UNREMARKED, head, block, lists, leaves);
    RemarksConcat(UNREMARKED, head + block, KeptFrom(ls, list, k), lists, leaves);
    RemarksConcat(UNREMARKED, was, ls[k..], lists, leaves);
    KeptRemarks(RemarksFrom(UNREMARKED, was, lists, leaves), RemarksFrom(st, block, lists, leaves), ls, list, k, lists,
                leaves);
  }

  /** However a list is edited, every remark outside the elements is still there, in order. */
  lemma {:induction false} NowRemarks(ls: seq<string>, list: string, block: seq<string>, e: ListEdit,
      lists: set<string>, leaves: set<string>)
    requires OursOnly(block, list) && NoComment(block) && Suits(ls, list, block, e) && list in lists
    ensures RemarksOf(NowLines(ls, list, block, e), lists, leaves) == RemarksOf(ls, lists, leaves)
  {
    hide Meant, KeptFrom, Trailing, BlocksOf, RemarksFrom;
    match e
    case InPlace(h) =>
      var k := BlockEnd(ls, h);
      BlockHasNone(RemarksFrom(UNREMARKED, ls[..h], lists, leaves), ls, list, h, lists, leaves);
      assert ls[..k] == ls[..h] + ls[h..k] && ls == ls[..k] + ls[k..];
      RemarksConcat(UNREMARKED, ls[..h], ls[h..k], lists, leaves);
      PutIn(ls[..h], ls[..k], ls, list, block, k, lists, leaves);
    case After(p) =>
      BlocksMeet(ls, list, p);
      NothingDropped(ls, list, p);
      RemarksFinished(ls[..p], lists, leaves);
      assert ls == ls[..p] + ls[p..];
      PutIn(Finished(ls[..p]) + ["\n"], ls[..p], ls, list, block, p, lists, leaves);
    case Alone =>
      RemarksFinished([], lists, leaves);
      RemarksConcat(UNREMARKED, ["\n"], block, lists, leaves);
      NewTextHasNone(RemarksFrom(UNREMARKED, ["\n"], lists, leaves), block, list, lists, leaves);
      assert Finished([]) + ["\n"] == ["\n"];
    case Untouched =>
  }

  /** Rendered elements have no comment in them. */
  lemma {:induction false} RenderedHasNone(list: string, items: seq<seq<Field>>)
    requires BareTable(list)
    requires forall item, f :: item in items && f in item ==> BareKey(f.name) && Plain(f.value)
    ensures NoComment(ItemLines(list, items))
  {
    hide Meant, ItemLines, BareTable;
    OurLines(list, items);
    var ls := ItemLines(list, items);
    assert forall i :: 0 <= i < |ls| ==> ls[i] in ls;
  }
}
