/** The text of a config as lines: headings, settings, comments and blanks.

    A setting is one line, `key = value`. Values are compared as they are written.
  */
module ConfigText {

  // ---- lines ------------------------------------------------------------------------

  predicate Ended(line: string) {
    line != "" && line[|line| - 1] == '\n'
  }

  /** One line, with the newline that ends it if it has one. */
  predicate IsLine(line: string) {
    line != "" && forall i :: 0 <= i < |line| - 1 ==> line[i] != '\n'
  }

  /** Only the last line may lack its newline. */
  ghost predicate Lined(ls: seq<string>) {
    && (forall i :: 0 <= i < |ls| ==> IsLine(ls[i]))
    && (forall i :: 0 <= i < |ls| - 1 ==> Ended(ls[i]))
  }

  function Join(ls: seq<string>): string {
    if ls == [] then "" else Join(ls[..|ls| - 1]) + ls[|ls| - 1]
  }

  lemma {:induction false} JoinConcat(a: seq<string>, b: seq<string>)
    ensures Join(a + b) == Join(a) + Join(b)
  {
    if b == [] {
      assert a + b == a;
    } else {
      assert (a + b)[..|a + b| - 1] == a + b[..|b| - 1];
      JoinConcat(a, b[..|b| - 1]);
      assert (Join(a) + Join(b[..|b| - 1])) + b[|b| - 1] == Join(a) + Join(b);
    }
  }

  lemma {:induction false} JoinOne(l: string)
    ensures Join([l]) == l
  {
    assert [l][..0] == [];
    assert "" + l == l;
  }

  /** Where a line begins. */
  function Offset(ls: seq<string>, i: nat): (at: nat)
    requires i <= |ls|
  {
    |Join(ls[..i])|
  }

  lemma {:induction false} JoinSplits(ls: seq<string>, i: nat)
    requires i <= |ls|
    ensures Offset(ls, i) <= |Join(ls)|
    ensures Join(ls)[..Offset(ls, i)] == Join(ls[..i]) && Join(ls)[Offset(ls, i)..] == Join(ls[i..])
  {
    assert ls == ls[..i] + ls[i..];
    JoinConcat(ls[..i], ls[i..]);
  }

  lemma {:induction false} OffsetNext(ls: seq<string>, i: nat)
    requires i < |ls|
    ensures Offset(ls, i + 1) == Offset(ls, i) + |ls[i]| <= |Join(ls)|
    ensures Join(ls)[Offset(ls, i)..Offset(ls, i + 1)] == ls[i]
  {
    assert ls[..i + 1][..i] == ls[..i];
    JoinSplits(ls, i);
    JoinSplits(ls, i + 1);
    assert Join(ls)[..Offset(ls, i + 1)] == Join(ls[..i]) + ls[i];
  }

  lemma {:induction false} OffsetAll(ls: seq<string>)
    ensures Offset(ls, |ls|) == |Join(ls)| && Offset(ls, 0) == 0
  {
    assert ls[..|ls|] == ls;
  }

  lemma {:induction false} OffsetsRise(ls: seq<string>, i: nat, j: nat)
    requires Lined(ls) && i <= j <= |ls|
    ensures Offset(ls, i) + (j - i) <= Offset(ls, j) <= |Join(ls)|
    decreases j - i
  {
    JoinSplits(ls, j);
    if i < j {
      OffsetsRise(ls, i, j - 1);
      OffsetNext(ls, j - 1);
    }
  }

  /** The first newline at or after a position, or the length of the text. */
  function NewlineFrom(text: string, at: nat): (i: nat)
    requires at <= |text|
    ensures at <= i <= |text|
    ensures forall k :: at <= k < i ==> text[k] != '\n'
    ensures i < |text| ==> text[i] == '\n'
    decreases |text| - at
  {
    if at < |text| && text[at] != '\n' then NewlineFrom(text, at + 1) else at
  }

  function LineEnd(text: string, at: nat): (stop: nat)
    requires at < |text|
    ensures at < stop <= |text|
  {
    var i := NewlineFrom(text, at);
    if i < |text| then i + 1 else |text|
  }

  /** The last newline before a position, or -1. */
  function LastNewline(text: string, to: nat): (i: int)
    requires to <= |text|
    ensures -1 <= i < to
    ensures i >= 0 ==> text[i] == '\n'
    ensures forall k :: i < k < to ==> text[k] != '\n'
  {
    if to == 0 then -1 else if text[to - 1] == '\n' then to - 1 else LastNewline(text, to - 1)
  }

  lemma {:induction false} JoinEnds(ls: seq<string>)
    requires Lined(ls) && ls != []
    ensures Join(ls) != "" && (Ended(Join(ls)) <==> Ended(ls[|ls| - 1]))
  {
  }

  /** A line that begins where one of the lines does ends where it does. */
  lemma {:induction false} LineEndIsOffset(ls: seq<string>, i: nat)
    requires Lined(ls) && i < |ls|
    ensures Offset(ls, i) < |Join(ls)| && LineEnd(Join(ls), Offset(ls, i)) == Offset(ls, i + 1)
  {
    var text, at, stop := Join(ls), Offset(ls, i), Offset(ls, i + 1);
    OffsetNext(ls, i);
    forall k | at <= k < stop ensures text[k] == ls[i][k - at] {
      assert text[at..stop][k - at] == text[k];
    }
    if i == |ls| - 1 {
      OffsetAll(ls);
    }
  }

  function Lines(text: string): seq<string>
    decreases |text|
  {
    if text == "" then [] else [text[..LineEnd(text, 0)]] + Lines(text[LineEnd(text, 0)..])
  }

  lemma {:induction false} LinedCons(l: string, ls: seq<string>)
    requires IsLine(l) && Lined(ls) && (ls == [] || Ended(l))
    ensures Lined([l] + ls) && Join([l] + ls) == l + Join(ls)
  {
    JoinConcat([l], ls);
    JoinOne(l);
  }

  lemma {:induction false} FirstLine(text: string)
    requires text != ""
    ensures var n := LineEnd(text, 0); IsLine(text[..n]) && (n < |text| ==> Ended(text[..n]))
  {
  }

  /** Every text is lines. */
  lemma {:induction false} LinesJoin(text: string)
    ensures Lined(Lines(text)) && Join(Lines(text)) == text
    decreases |text|
  {
    if text != "" {
      hide Lined, Join, IsLine, Ended, Lines, NewlineFrom;
      FirstLine(text);
      LinesNext(text);
      var n := LineEnd(text, 0);
      LinesJoin(text[n..]);
      NoLines();
      LinedCons(text[..n], Lines(text[n..]));
    } else {
      NoLines();
    }
  }

  lemma {:induction false} LinesNext(text: string)
    requires text != ""
    ensures Lines(text) == [text[..LineEnd(text, 0)]] + Lines(text[LineEnd(text, 0)..])
  {
  }

  lemma {:induction false} NoLines()
    ensures Lined([]) && Join([]) == ""
  {
  }

  // ---- what a line says -----------------------------------------------------------------

  predicate Space(c: char) {
    c == ' ' || c == '\t' || c == '\n' || c == '\r' || c as int == 11 || c as int == 12
  }

  function SkipSpace(s: string): (r: string)
    ensures r != "" ==> !Space(r[0])
    ensures |r| <= |s|
  {
    if s != "" && Space(s[0]) then SkipSpace(s[1..]) else s
  }

  function DropSpace(s: string): (r: string)
    ensures r != "" ==> !Space(r[|r| - 1])
  {
    if s != "" && Space(s[|s| - 1]) then DropSpace(s[..|s| - 1]) else s
  }

  function Trim(s: string): string {
    DropSpace(SkipSpace(s))
  }

  /** Where a character first is, or the length. */
  function IndexOf(s: string, c: char): (i: nat)
    ensures i <= |s|
    ensures forall k :: 0 <= k < i ==> s[k] != c
    ensures i < |s| ==> s[i] == c
  {
    if s == "" || s[0] == c then 0 else 1 + IndexOf(s[1..], c)
  }

  datatype Meaning =
    | Blank
    | Comment
    | Heading(name: string)
    | ListHeading(name: string)
    | Setting(leaf: string, value: string)
    | Unreadable

  function Meant(line: string): Meaning {
    var t := Trim(line);
    if t == "" then Blank
    else if t[0] == '#' then Comment
    else if t[0] == '[' then
      if |t| > 1 && t[1] == '[' then ListHeading(Trim(t[2..][..IndexOf(t[2..], ']')]))
      else Heading(Trim(t[1..][..IndexOf(t[1..], ']')]))
    else
      var e := IndexOf(t, '=');
      if e == |t| then Unreadable else Setting(Trim(t[..e]), Trim(t[e + 1..]))
  }

  /** Blank and comment lines, which belong to whatever comes next. */
  predicate IsTrailer(line: string) {
    Meant(line).Blank? || Meant(line).Comment?
  }

  predicate IsHeading(line: string) {
    Meant(line).Heading? || Meant(line).ListHeading?
  }

  predicate IsNode(line: string) {
    IsHeading(line) || Meant(line).Setting?
  }

  /** The name of the list, or of a section hanging off its elements. */
  predicate Belongs(name: string, list: string) {
    name == list || list + "." <= name
  }

  /** A section that is part of one of some lists of tables. */
  predicate Listed(table: string, lists: set<string>) {
    exists list :: list in lists && Belongs(table, list)
  }

  // ---- what the text says -----------------------------------------------------------------

  /** A setting's name: its section and the key within it. */
  datatype Key = Key(table: string, leaf: string)

  datatype Reading = Reading(table: string, settings: map<Key, string>)

  const UNREAD: Reading := Reading("", map[])

  function ReadLine(r: Reading, line: string): Reading {
    match Meant(line)
    case Heading(name) => Reading(name, r.settings)
    case ListHeading(name) => Reading(name, r.settings)
    case Setting(leaf, value) => Reading(r.table, r.settings[Key(r.table, leaf) := value])
    case _ => r
  }

  function ReadFrom(r: Reading, ls: seq<string>): Reading {
    if ls == [] then r else ReadLine(ReadFrom(r, ls[..|ls| - 1]), ls[|ls| - 1])
  }

  /** The section a line is in. */
  function TableAt(ls: seq<string>, i: nat): string
    requires i <= |ls|
  {
    ReadFrom(UNREAD, ls[..i]).table
  }

  /** The settings a text makes. */
  function Settings(ls: seq<string>): map<Key, string> {
    ReadFrom(UNREAD, ls).settings
  }

  predicate Sets(ls: seq<string>, i: nat, key: Key) {
    i < |ls| && Meant(ls[i]).Setting? && Key(TableAt(ls, i), Meant(ls[i]).leaf) == key
  }

  lemma {:induction false} ReadConcat(r: Reading, a: seq<string>, b: seq<string>)
    ensures ReadFrom(r, a + b) == ReadFrom(ReadFrom(r, a), b)
  {
    if b == [] {
      assert a + b == a;
    } else {
      assert (a + b)[..|a + b| - 1] == a + b[..|b| - 1];
      ReadConcat(r, a, b[..|b| - 1]);
    }
  }

  /** Which section the text goes on in does not depend on what has been set. */
  lemma {:induction false} TableOnly(r: Reading, q: Reading, ls: seq<string>)
    requires r.table == q.table
    ensures ReadFrom(r, ls).table == ReadFrom(q, ls).table
  {
    if ls != [] {
      TableOnly(r, q, ls[..|ls| - 1]);
    }
  }
}
