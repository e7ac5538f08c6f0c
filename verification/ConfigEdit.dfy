/** Editing one setting in the text of a config, by offset. */
module ConfigEdit {
  import opened Wrappers
  import opened ConfigText

  // ---- the edit, on lines ----------------------------------------------------------------

  /** What an edit does to the lines. */
  datatype LineEdit =
    | Keep
    | Replace(at: nat, line: string)
    | Insert(at: nat, line: string)
    | AddSection(table: string, line: string)

  /** The lines with the last one finished. */
  function Finished(ls: seq<string>): seq<string> {
    if ls != [] && !Ended(ls[|ls| - 1]) then ls[..|ls| - 1] + [ls[|ls| - 1] + "\n"] else ls
  }

  function HeadingLine(table: string): string {
    "[" + table + "]\n"
  }

  ghost predicate Fits(ls: seq<string>, e: LineEdit) {
    match e
    case Replace(at, _) => at < |ls|
    case Insert(at, _) => 0 < at <= |ls|
    case _ => true
  }

  function Apply(ls: seq<string>, e: LineEdit): seq<string>
    requires Fits(ls, e)
  {
    match e
    case Keep => ls
    case Replace(at, line) => ls[..at] + [line] + ls[at + 1..]
    case Insert(at, line) => Finished(ls[..at]) + [line] + ls[at..]
    case AddSection(table, line) =>
      Finished(ls) + (if ls == [] then [] else ["\n"]) + [HeadingLine(table), line]
  }

  function SettingLine(leaf: string, value: string): string {
    leaf + " = " + value + "\n"
  }

  function SkipBlank(s: string): (r: string)
    ensures |r| <= |s|
  {
    if s != "" && (s[0] == ' ' || s[0] == '\t') then SkipBlank(s[1..]) else s
  }

  /** A commented-out setting of that name. */
  predicate Placeholder(line: string, leaf: string) {
    var a := SkipBlank(line);
    && a != "" && a[0] == '#'
    && var b := SkipBlank(a[1..]);
       && leaf <= b
       && var c := SkipBlank(b[|leaf|..]);
          c != "" && c[0] == '='
  }

  /** `h` is the first heading of the section, `stop` is where its text ends and `last` is its last setting, or the
      heading. */
  ghost predicate Section(ls: seq<string>, table: string, h: nat, stop: nat, last: nat) {
    && h <= last < stop <= |ls| && Meant(ls[h]) == Heading(table)
    && (forall i :: 0 <= i < h ==> Meant(ls[i]) != Heading(table))
    && (forall i :: h < i < stop ==> !IsHeading(ls[i]))
    && (stop < |ls| ==> IsHeading(ls[stop]))
    && (forall i :: last < i < stop ==> IsTrailer(ls[i])) && !IsTrailer(ls[last])
  }

  ghost predicate NoHeading(ls: seq<string>, table: string) {
    forall i :: 0 <= i < |ls| ==> Meant(ls[i]) != Heading(table)
  }

  ghost predicate SetAt(ls: seq<string>, key: Key, i: nat) {
    Sets(ls, i, key) && forall j :: 0 <= j < i ==> !Sets(ls, j, key)
  }

  ghost predicate Unset(ls: seq<string>, key: Key) {
    forall i :: 0 <= i < |ls| ==> !Sets(ls, i, key)
  }

  /** Where in its section a setting that is not there goes: over its placeholder, or after the last setting. */
  ghost predicate GoesIn(ls: seq<string>, leaf: string, line: string, h: nat, stop: nat, last: nat, e: LineEdit)
    requires stop <= |ls|
  {
    match e
    case Replace(at, l) =>
      l == line && h <= at < stop && Placeholder(ls[at], leaf) && forall i :: h <= i < at ==> !Placeholder(ls[i], leaf)
    case Insert(at, l) =>
      l == line && at == last + 1 && forall i :: h <= i < stop ==> !Placeholder(ls[i], leaf)
    case _ => false
  }

  /** The edit that gives `key` the value `value`, or comments it out with it. */
  ghost predicate Asked(ls: seq<string>, key: Key, value: string, remove: bool, e: LineEdit) {
    var line := SettingLine(key.leaf, value);
    if !Unset(ls, key) then
      e.Replace? && SetAt(ls, key, e.at) && e.line == (if remove then "# " + line else line)
    else if remove then e.Keep?
    else if NoHeading(ls, key.table) then e == AddSection(key.table, line)
    else exists h, stop, last :: Section(ls, key.table, h, stop, last) && GoesIn(ls, key.leaf, line, h, stop, last, e)
  }

  // ---- the edit, on the text ---------------------------------------------------------------

  datatype Node = Node(meant: Meaning, table: string, start: nat, end: nat)

  /** Where a setting's lines stop, when the next one begins at line `j`. */
  function TrailerCut(ls: seq<string>, i: nat, j: nat): (k: nat)
    requires i < j <= |ls|
    ensures i < k <= j
    ensures forall l :: k <= l < j ==> IsTrailer(ls[l])
    ensures k > i + 1 ==> !IsTrailer(ls[k - 1])
    decreases j
  {
    if j > i + 1 && IsTrailer(ls[j - 1]) then TrailerCut(ls, i, j - 1) else j
  }

  lemma {:induction false} LastNewlineAt(text: string, start: nat, begin: nat, stop: nat)
    requires start <= begin <= stop <= |text|
    requires start < begin ==> text[begin - 1] == '\n'
    requires forall p :: begin <= p < stop ==> text[p] != '\n'
    ensures start + LastNewline(text[start..stop], stop - start) + 1 == begin
  {
    var body := text[start..stop];
    var i := LastNewline(body, |body|);
    if i >= 0 {
      assert text[start + i] == body[i];
    }
    if start < begin {
      assert body[begin - 1 - start] == '\n';
    }
  }

  lemma {:induction false} LastCharOf(ls: seq<string>, k: nat)
    requires Lined(ls) && k < |ls|
    ensures Offset(ls, k) < Offset(ls, k + 1) <= |Join(ls)|
    ensures k + 1 < |ls| ==> Join(ls)[Offset(ls, k + 1) - 1] == '\n'
    ensures forall p :: Offset(ls, k) <= p < Offset(ls, k + 1) - 1 ==> Join(ls)[p] != '\n'
  {
    OffsetNext(ls, k);
    var text, begin, end := Join(ls), Offset(ls, k), Offset(ls, k + 1);
    forall p | begin <= p < end ensures text[p] == ls[k][p - begin] {
      assert text[begin..end][p - begin] == text[p];
    }
  }

  /** The last newline of some lines, the final one aside, is the one before the last line. */
  lemma {:induction false} LastLineBegins(ls: seq<string>, i: nat, k: nat)
    requires Lined(ls) && i < k <= |ls|
    ensures Offset(ls, i) < Offset(ls, k) <= |Join(ls)|
    ensures var text, start, end := Join(ls), Offset(ls, i), Offset(ls, k);
            var stop := if text[end - 1] == '\n' then end - 1 else end;
            start <= stop && start + LastNewline(text[start..stop], stop - start) + 1 == Offset(ls, k - 1)
  {
    hide Join, Offset, LastNewline;
    var text, start, end := Join(ls), Offset(ls, i), Offset(ls, k);
    OffsetsRise(ls, i, k - 1);
    LastCharOf(ls, k - 1);
    if i < k - 1 {
      OffsetsRise(ls, i, k - 2);
      LastCharOf(ls, k - 2);
    }
    LastNewlineAt(text, start, Offset(ls, k - 1), if text[end - 1] == '\n' then end - 1 else end);
  }

  method WithoutTrailer(text: string, start: nat, limit: nat, ghost ls: seq<string>, ghost i: nat, ghost j: nat)
      returns (end: nat)
    requires Lined(ls) && text == Join(ls) && i < j <= |ls|
    requires start == Offset(ls, i) && limit == Offset(ls, j)
    ensures end == Offset(ls, TrailerCut(ls, i, j))
  {
    hide Join, Lined, Meant, Offset;
    end := limit;
    ghost var k := j;
    LastLineBegins(ls, i, j);
    while end > start
      invariant i < k <= j && end == Offset(ls, k) > start
      invariant TrailerCut(ls, i, j) == TrailerCut(ls, i, k)
      decreases end
    {
      LastLineBegins(ls, i, k);
      var stop := if text[end - 1] == '\n' then end - 1 else end;
      var begin := start + LastNewline(text[start..stop], stop - start) + 1;
      OffsetsOf(ls, i, k);
      if begin <= start {
        break;
      }
      if !IsTrailer(text[begin..end]) {
        break;
      }
      end := begin;
      k := k - 1;
    }
  }

  lemma {:induction false} OffsetsOf(ls: seq<string>, i: nat, k: nat)
    requires Lined(ls) && i < k <= |ls|
    ensures Offset(ls, k - 1) < Offset(ls, k) <= |Join(ls)|
    ensures Join(ls)[Offset(ls, k - 1)..Offset(ls, k)] == ls[k - 1]
    ensures Offset(ls, k - 1) <= Offset(ls, i) <==> k == i + 1
  {
    OffsetsRise(ls, i, k - 1);
    OffsetNext(ls, k - 1);
  }

  /** Which lines the nodes found so far are. */
  ghost predicate NodesUpTo(ls: seq<string>, nodes: seq<Node>, at: seq<nat>, n: nat) {
    && n <= |ls| && |nodes| == |at|
    && (forall k :: 0 <= k < |at| ==> at[k] < n && IsNode(ls[at[k]]) && NodeIs(ls, nodes[k], at[k]))
    && (forall j, k :: 0 <= j < k < |at| ==> at[j] < at[k])
    && (forall i :: 0 <= i < n && IsNode(ls[i]) ==> i in at)
  }

  ghost predicate NodeIs(ls: seq<string>, n: Node, i: nat)
    requires i < |ls|
  {
    n.meant == Meant(ls[i]) && n.table == TableAt(ls, i) && n.start == Offset(ls, i)
  }

  ghost predicate Scanned(ls: seq<string>, nodes: seq<Node>, at: seq<nat>) {
    && NodesUpTo(ls, nodes, at, |ls|)
    && forall k :: 0 <= k < |at| ==> nodes[k].end == Offset(ls, at[k] + 1)
  }

  ghost predicate Readable(ls: seq<string>) {
    forall i :: 0 <= i < |ls| ==> !Meant(ls[i]).Unreadable?
  }

  lemma {:induction false} TableNext(ls: seq<string>, i: nat)
    requires i < |ls|
    ensures TableAt(ls, i + 1) == match Meant(ls[i])
                                  case Heading(name) => name
                                  case ListHeading(name) => name
                                  case _ => TableAt(ls, i)
  {
    assert ls[..i + 1][..i] == ls[..i];
  }

  lemma {:induction false} AnotherNode(ls: seq<string>, nodes: seq<Node>, at: seq<nat>, i: nat, node: Node)
    requires NodesUpTo(ls, nodes, at, i) && i < |ls|
    ensures IsNode(ls[i]) && NodeIs(ls, node, i) ==> NodesUpTo(ls, nodes + [node], at + [i], i + 1)
    ensures !IsNode(ls[i]) ==> NodesUpTo(ls, nodes, at, i + 1)
  {
    hide Meant, TableAt, Offset;
    if IsNode(ls[i]) {
      assert i in at + [i];
      forall j | 0 <= j < i && IsNode(ls[j]) ensures j in at + [i] {
        assert j in at;
      }
    }
  }

  /** Every line that is a node is one of the nodes, and nodes fall in line order. */
  lemma {:induction false} NodeOfLine(ls: seq<string>, nodes: seq<Node>, at: seq<nat>, i: nat) returns (k: nat)
    requires NodesUpTo(ls, nodes, at, |ls|) && i < |ls| && IsNode(ls[i])
    ensures k < |at| && at[k] == i && nodes[k].meant == Meant(ls[i])
    ensures forall j :: 0 <= j < |at| ==> (j < k <==> at[j] < i)
  {
    hide Meant, TableAt, Offset;
    k :| 0 <= k < |at| && at[k] == i;
  }

  /** Nothing between two neighbours of a rising sequence is in it. */
  lemma {:induction false} NotBetween(at: seq<nat>, k: int, l: nat)
    requires forall i, j :: 0 <= i < j < |at| ==> at[i] < at[j]
    requires -1 <= k < |at| && (k >= 0 ==> at[k] < l) && (k + 1 < |at| ==> l < at[k + 1])
    ensures l !in at
  {
    forall m | 0 <= m < |at| ensures at[m] != l {
      if k < m {
        assert at[k + 1] <= at[m];
      } else {
        assert at[m] <= at[k];
      }
    }
  }

  /** Between two nodes there are only lines that belong to the second. */
  lemma {:induction false} NodeEnds(ls: seq<string>, nodes: seq<Node>, at: seq<nat>, k: nat)
    requires NodesUpTo(ls, nodes, at, |ls|) && Readable(ls) && k < |at|
    ensures var j := if k + 1 < |at| then at[k + 1] else |ls|;
            at[k] < j && TrailerCut(ls, at[k], j) == at[k] + 1
  {
    hide Meant, TableAt, Offset, TrailerCut;
    var j := if k + 1 < |at| then at[k + 1] else |ls|;
    forall l | at[k] < l < j ensures IsTrailer(ls[l]) {
      NotBetween(at, k, l);
    }
  }

  /** Noting where a node ends changes nothing else about it. */
  lemma {:induction false} EndNoted(ls: seq<string>, nodes: seq<Node>, at: seq<nat>, k: nat, end: nat)
    requires NodesUpTo(ls, nodes, at, |ls|) && k < |nodes|
    ensures NodesUpTo(ls, nodes[k := nodes[k].(end := end)], at, |ls|)
  {
    hide Meant, TableAt, Offset;
    var now := nodes[k := nodes[k].(end := end)];
    forall i | 0 <= i < |at| ensures at[i] < |ls| && IsNode(ls[at[i]]) && NodeIs(ls, now[i], at[i]) {
      assert NodeIs(ls, nodes[i], at[i]);
    }
  }

  lemma {:induction false} NodeInside(ls: seq<string>, nodes: seq<Node>, at: seq<nat>, k: nat)
    requires NodesUpTo(ls, nodes, at, |ls|) && k < |nodes|
    ensures |at| == |nodes| && at[k] < |ls| && nodes[k].start == Offset(ls, at[k])
  {
    hide Meant, TableAt, Offset;
    assert NodeIs(ls, nodes[k], at[k]);
  }

  /** The headings and settings of a text, in order, with where each begins and ends. */
  method Scan(text: string, ghost ls: seq<string>) returns (nodes: seq<Node>)
    requires Lined(ls) && text == Join(ls) && Readable(ls)
    ensures exists at :: Scanned(ls, nodes, at)
  {
    hide Join, Lined, Meant, Offset, TableAt, Readable, NodesUpTo;
    ghost var at;
    nodes, at := FindNodes(text, ls);
    OffsetAll(ls);
    NodesPaired(ls, nodes, at);
    for k := 0 to |nodes|
      invariant NodesUpTo(ls, nodes, at, |ls|) && |at| == |nodes| && forall l :: 0 <= l < |at| ==> at[l] < |ls|
      invariant forall l :: 0 <= l < k ==> nodes[l].end == Offset(ls, at[l] + 1)
    {
      NodeInside(ls, nodes, at, k);
      var limit := |text|;
      if k + 1 < |nodes| {
        NodeInside(ls, nodes, at, k + 1);
        limit := nodes[k + 1].start;
      }
      NodeEnds(ls, nodes, at, k);
      var end := WithoutTrailer(text, nodes[k].start, limit, ls, at[k], if k + 1 < |at| then at[k + 1] else |ls|);
      EndNoted(ls, nodes, at, k, end);
      nodes := nodes[k := nodes[k].(end := end)];
    }
    assert Scanned(ls, nodes, at);
  }

  lemma {:induction false} NodesPaired(ls: seq<string>, nodes: seq<Node>, at: seq<nat>)
    requires NodesUpTo(ls, nodes, at, |ls|)
    ensures |at| == |nodes| && forall l :: 0 <= l < |at| ==> at[l] < |ls|
  {
    hide Meant, TableAt, Offset;
  }

  method FindNodes(text: string, ghost ls: seq<string>) returns (nodes: seq<Node>, ghost at: seq<nat>)
    requires Lined(ls) && text == Join(ls)
    ensures NodesUpTo(ls, nodes, at, |ls|)
  {
    nodes, at := [], [];
    var offset, table := 0, "";
    ghost var i := 0;
    OffsetAll(ls);
    while offset < |text|
      invariant i <= |ls| && offset == Offset(ls, i) <= |text| && table == TableAt(ls, i)
      invariant NodesUpTo(ls, nodes, at, i)
      decreases |text| - offset
    {
      hide Join, Lined, Meant, Offset, TableAt, NodesUpTo;
      NotTheEnd(ls, i);
      LineEndIsOffset(ls, i);
      OffsetNext(ls, i);
      TableNext(ls, i);
      var stop := LineEnd(text, offset);
      var meant := Meant(text[offset..stop]);
      AnotherNode(ls, nodes, at, i, Node(meant, table, offset, 0));
      if meant.Heading? || meant.ListHeading? || meant.Setting? {
        nodes, at := nodes + [Node(meant, table, offset, 0)], at + [i];
      }
      if meant.Heading? || meant.ListHeading? {
        table := meant.name;
      }
      offset, i := stop, i + 1;
    }
    AtTheEnd(ls, i);
  }

  lemma {:induction false} NotTheEnd(ls: seq<string>, i: nat)
    requires i <= |ls| && Offset(ls, i) < |Join(ls)|
    ensures i < |ls|
  {
    OffsetAll(ls);
  }

  lemma {:induction false} AtTheEnd(ls: seq<string>, i: nat)
    requires Lined(ls) && i <= |ls| && Offset(ls, i) >= |Join(ls)|
    ensures i == |ls|
  {
    OffsetsRise(ls, i, |ls|);
  }

  // ---- where a section is ----------------------------------------------------------------------

  datatype Span = Span(start: nat, stop: nat, after: nat)

  /** The span is that of the section's lines. */
  ghost predicate SpanIs(ls: seq<string>, span: Span, h: nat, stop: nat, last: nat) {
    && h <= last < stop <= |ls|
    && span == Span(Offset(ls, h), Offset(ls, stop), Offset(ls, last + 1))
  }

  method SectionOf(nodes: seq<Node>, table: string, size: nat, ghost ls: seq<string>, ghost at: seq<nat>)
    returns (span: Option<Span>, ghost h: nat, ghost stop: nat, ghost last: nat)
    requires Scanned(ls, nodes, at) && Readable(ls) && size == Offset(ls, |ls|)
    ensures span.None? ==> NoHeading(ls, table)
    ensures span.Some? ==> Section(ls, table, h, stop, last) && SpanIs(ls, span.value, h, stop, last)
  {
    hide Join, Lined, Meant, Offset, TableAt;
    h, stop, last := 0, 0, 0;
    for i := 0 to |nodes|
      invariant forall k :: 0 <= k < i ==> nodes[k].meant != Heading(table)
    {
      if nodes[i].meant == Heading(table) {
        h, last := at[i], at[i];
        var found := Span(nodes[i].start, size, nodes[i].end);
        var later := i + 1;
        while later < |nodes| && nodes[later].meant.Setting?
          invariant i < later <= |nodes| && last == at[later - 1]
          invariant forall k :: i < k < later ==> nodes[k].meant.Setting?
          invariant found == Span(Offset(ls, h), size, Offset(ls, last + 1))
        {
          found := found.(after := nodes[later].end);
          last := at[later];
          later := later + 1;
        }
        if later < |nodes| {
          found := found.(stop := nodes[later].start);
        }
        stop := if later < |nodes| then at[later] else |ls|;
        NodesMakeASection(ls, nodes, at, table, i, later);
        return Some(found), h, stop, last;
      }
    }
    NodesHaveNoHeading(ls, nodes, at, table);
    return None, h, stop, last;
  }

  lemma {:induction false} NodesHaveNoHeading(ls: seq<string>, nodes: seq<Node>, at: seq<nat>, table: string)
    requires Scanned(ls, nodes, at)
    requires forall k :: 0 <= k < |nodes| ==> nodes[k].meant != Heading(table)
    ensures NoHeading(ls, table)
  {
    hide Meant, TableAt, Offset;
    forall i | 0 <= i < |ls| ensures Meant(ls[i]) != Heading(table) {
      if IsNode(ls[i]) {
        var k :| 0 <= k < |at| && at[k] == i;
      }
    }
  }

  lemma {:induction false} FirstHeading(ls: seq<string>, nodes: seq<Node>, at: seq<nat>, table: string, first: nat)
    requires Scanned(ls, nodes, at) && first < |nodes|
    requires forall k :: 0 <= k < first ==> nodes[k].meant != Heading(table)
    ensures forall i :: 0 <= i < at[first] ==> Meant(ls[i]) != Heading(table)
  {
    hide Meant, TableAt, Offset;
    forall i | 0 <= i < at[first] ensures Meant(ls[i]) != Heading(table) {
      if IsNode(ls[i]) {
        var k := NodeOfLine(ls, nodes, at, i);
      }
    }
  }

  lemma {:induction false} SettingsOnly(ls: seq<string>, nodes: seq<Node>, at: seq<nat>, first: nat, later: nat, i: nat)
    requires Scanned(ls, nodes, at) && first < later <= |nodes|
    requires forall k :: first < k < later ==> nodes[k].meant.Setting?
    requires at[first] < i < (if later < |nodes| then at[later] else |ls|) && IsNode(ls[i])
    ensures Meant(ls[i]).Setting? && i <= at[later - 1]
  {
    hide Meant, TableAt, Offset;
    var k := NodeOfLine(ls, nodes, at, i);
    assert first < k < later;
  }

  /** Nodes `first` (a heading) through `later` exclusive are a section. */
  lemma {:induction false} NodesMakeASection(ls: seq<string>, nodes: seq<Node>, at: seq<nat>, table: string,
      first: nat, later: nat)
    requires Scanned(ls, nodes, at) && Readable(ls) && first < later <= |nodes|
    requires nodes[first].meant == Heading(table) && forall k :: 0 <= k < first ==> nodes[k].meant != Heading(table)
    requires forall k :: first < k < later ==> nodes[k].meant.Setting?
    requires later < |nodes| ==> !nodes[later].meant.Setting?
    ensures var stop := if later < |nodes| then at[later] else |ls|;
            Section(ls, table, at[first], stop, at[later - 1])
  {
    hide Meant, TableAt, Offset;
    var h, stop, last := at[first], if later < |nodes| then at[later] else |ls|, at[later - 1];
    FirstHeading(ls, nodes, at, table, first);
    forall i | h < i < stop ensures !IsHeading(ls[i]) && (last < i ==> IsTrailer(ls[i])) {
      if IsNode(ls[i]) {
        SettingsOnly(ls, nodes, at, first, later, i);
      }
    }
    assert NodeIs(ls, nodes[first], h) && NodeIs(ls, nodes[later - 1], last);
    if later < |nodes| {
      assert NodeIs(ls, nodes[later], stop);
    }
  }

  // ---- the edit ----------------------------------------------------------------------------------

  function Splice(text: string, from: nat, to: nat, with: string): string
    requires from <= to <= |text|
  {
    text[..from] + with + text[to..]
  }

  /** Puts text at an offset, after finishing the line before it. */
  function InsertLine(text: string, at: nat, with: string): string
    requires at <= |text|
  {
    Splice(text, at, at, if at > 0 && text[at - 1] != '\n' then "\n" + with else with)
  }

  function AppendSection(text: string, table: string, line: string): string {
    var out := if |text| > 0 && text[|text| - 1] != '\n' then text + "\n" else text;
    (if |out| > 0 then out + "\n" else out) + "[" + table + "]\n" + line
  }

  lemma {:induction false} SpliceIsReplace(ls: seq<string>, i: nat, line: string)
    requires Lined(ls) && i < |ls|
    ensures Offset(ls, i) <= Offset(ls, i + 1) <= |Join(ls)|
    ensures Splice(Join(ls), Offset(ls, i), Offset(ls, i + 1), line) == Join(Apply(ls, Replace(i, line)))
  {
    OffsetNext(ls, i);
    JoinSplits(ls, i);
    JoinSplits(ls, i + 1);
    JoinConcat(ls[..i] + [line], ls[i + 1..]);
    JoinConcat(ls[..i], [line]);
    JoinOne(line);
  }

  lemma {:induction false} FinishedJoin(ls: seq<string>)
    requires Lined(ls)
    ensures Join(Finished(ls)) == if Join(ls) != "" && Join(ls)[|Join(ls)| - 1] != '\n' then Join(ls) + "\n"
              else Join(ls)
  {
    if ls != [] {
      JoinEnds(ls);
      var last := ls[|ls| - 1];
      if !Ended(last) {
        JoinConcat(ls[..|ls| - 1], [last + "\n"]);
        JoinOne(last + "\n");
        assert Join(ls[..|ls| - 1]) + (last + "\n") == Join(ls) + "\n";
      }
    }
  }

  lemma {:induction false} LinedPrefix(ls: seq<string>, i: nat)
    requires Lined(ls) && i <= |ls|
    ensures Lined(ls[..i])
  {
  }

  lemma {:induction false} InsertIsInsert(ls: seq<string>, i: nat, line: string)
    requires Lined(ls) && 0 < i <= |ls|
    ensures Offset(ls, i) <= |Join(ls)|
    ensures InsertLine(Join(ls), Offset(ls, i), line) == Join(Apply(ls, Insert(i, line)))
  {
    hide Join, Lined;
    JoinSplits(ls, i);
    LinedPrefix(ls, i);
    FinishedJoin(ls[..i]);
    var head, tail := Join(ls[..i]), Join(ls[i..]);
    assert Offset(ls, i) > 0 ==> Join(ls)[Offset(ls, i) - 1] == head[|head| - 1];
    JoinConcat(Finished(ls[..i]) + [line], ls[i..]);
    JoinConcat(Finished(ls[..i]), [line]);
    JoinOne(line);
    assert head + ("\n" + line) + tail == ((head + "\n") + line) + tail;
    assert head + line + tail == (head + line) + tail;
  }

  lemma {:induction false} AppendIsAddSection(ls: seq<string>, table: string, line: string)
    requires Lined(ls)
    ensures AppendSection(Join(ls), table, line) == Join(Apply(ls, AddSection(table, line)))
  {
    FinishedJoin(ls);
    var gap := if ls == [] then [] else ["\n"];
    JoinConcat(Finished(ls) + gap, [HeadingLine(table), line]);
    JoinConcat(Finished(ls), gap);
    JoinConcat([HeadingLine(table)], [line]);
    JoinOne(HeadingLine(table));
    JoinOne(line);
    JoinOne("\n");
    if ls == [] {
      assert Join(gap) == "" && Finished(ls) == [];
    } else {
      JoinEnds(ls);
    }
    assert [HeadingLine(table)] + [line] == [HeadingLine(table), line];
    GluesTogether(Join(Finished(ls)) + Join(gap), table, line);
  }

  lemma {:induction false} GluesTogether(out: string, table: string, line: string)
    ensures out + "[" + table + "]\n" + line == out + (HeadingLine(table) + line)
  {
  }

  method FindPlaceholder(text: string, start: nat, stop: nat, leaf: string, ghost ls: seq<string>, ghost h: nat,
      ghost last: nat)
    returns (found: Option<(nat, nat)>, ghost at: nat)
    requires Lined(ls) && text == Join(ls) && h < last <= |ls| && start == Offset(ls, h) && stop == Offset(ls, last)
    ensures found.None? ==> forall i :: h <= i < last ==> !Placeholder(ls[i], leaf)
    ensures found.Some? ==>
              && h <= at < last && Placeholder(ls[at], leaf) && (forall i :: h <= i < at ==> !Placeholder(ls[i], leaf))
              && found.value == (Offset(ls, at), Offset(ls, at + 1))
  {
    hide Join, Lined, Offset, Placeholder;
    var offset := start;
    at := h;
    OffsetsRise(ls, h, last);
    while offset < stop
      invariant h <= at <= last && offset == Offset(ls, at) <= stop <= |text|
      invariant forall i :: h <= i < at ==> !Placeholder(ls[i], leaf)
      decreases stop - offset
    {
      BeforeTheStop(ls, at, last);
      LineEndIsOffset(ls, at);
      OffsetNext(ls, at);
      OffsetsRise(ls, at + 1, last);
      var next := LineEnd(text, offset);
      if Placeholder(text[offset..next], leaf) {
        return Some((offset, next)), at;
      }
      offset, at := next, at + 1;
    }
    OffsetsRise(ls, at, last);
    return None, at;
  }

  lemma {:induction false} BeforeTheStop(ls: seq<string>, i: nat, j: nat)
    requires Lined(ls) && i <= j <= |ls| && Offset(ls, i) < Offset(ls, j)
    ensures i < j
  {
  }

  /** The text an edit leaves. */
  ghost predicate Edited(ls: seq<string>, key: Key, value: string, remove: bool, e: LineEdit, out: string) {
    Fits(ls, e) && Asked(ls, key, value, remove, e) && out == Join(Apply(ls, e))
  }

  /** Gives `key` the value `value`, or takes it back to a comment holding it. The text is one that
      can be read line by line. */
  method EditValue(text: string, key: Key, value: string, remove: bool) returns (out: string)
    requires Readable(Lines(text))
    ensures exists e :: Edited(Lines(text), key, value, remove, e, out)
  {
    hide Join, Lined, Meant, Offset, TableAt, Section, GoesIn, SetAt, Unset, NoHeading, Placeholder, NodesUpTo,
        Readable, Scanned;
    ghost var ls := Lines(text);
    LinesJoin(text);
    var nodes := Scan(text, ls);
    ghost var at :| Scanned(ls, nodes, at);
    var line := SettingLine(key.leaf, value);
    NodeCount(ls, nodes, at);
    for k := 0 to |nodes|
      invariant forall j :: 0 <= j < k ==> !(nodes[j].meant.Setting? && Key(nodes[j].table, nodes[j].meant.leaf) == key)
    {
      if nodes[k].meant.Setting? && Key(nodes[k].table, nodes[k].meant.leaf) == key {
        NodeSpan(ls, nodes, at, k);
        FirstSetting(ls, nodes, at, key, k);
        SpliceIsReplace(ls, at[k], if remove then "# " + line else line);
        out := Splice(text, nodes[k].start, nodes[k].end, if remove then "# " + line else line);
        assert Edited(ls, key, value, remove, Replace(at[k], if remove then "# " + line else line), out);
        return;
      }
    }
    NoSetting(ls, nodes, at, key);
    if remove {
      assert Edited(ls, key, value, remove, Keep, text);
      return text;
    }
    out := WriteNew(text, key, value, nodes, ls, at);
  }

  /** Writes a setting the text does not make yet. */
  method WriteNew(text: string, key: Key, value: string, nodes: seq<Node>, ghost ls: seq<string>, ghost at: seq<nat>)
      returns (out: string)
    requires Lined(ls) && text == Join(ls) && Readable(ls) && Scanned(ls, nodes, at) && Unset(ls, key)
    ensures exists e :: Edited(ls, key, value, false, e, out)
  {
    hide Join, Lined, Meant, Offset, TableAt, Section, GoesIn, SetAt, Unset, NoHeading, Placeholder, NodesUpTo,
        Readable, Scanned;
    var line := SettingLine(key.leaf, value);
    OffsetAll(ls);
    ghost var h, stop, last;
    var section;
    section, h, stop, last := SectionOf(nodes, key.table, |text|, ls, at);
    if section.None? {
      AppendIsAddSection(ls, key.table, line);
      out := AppendSection(text, key.table, line);
      assert Edited(ls, key, value, false, AddSection(key.table, line), out);
      return;
    }
    SectionInside(ls, key.table, h, stop, last);
    ghost var p;
    var found;
    found, p := FindPlaceholder(text, section.value.start, section.value.stop, key.leaf, ls, h, stop);
    if found.Some? {
      SpliceIsReplace(ls, p, line);
      OverPlaceholder(ls, key, line, h, stop, last, p);
      out := Splice(text, found.value.0, found.value.1, line);
      assert Edited(ls, key, value, false, Replace(p, line), out);
      return;
    }
    InsertIsInsert(ls, last + 1, line);
    AfterTheLast(ls, key, line, h, stop, last);
    out := InsertLine(text, section.value.after, line);
    assert Edited(ls, key, value, false, Insert(last + 1, line), out);
  }

  lemma {:induction false} NodeCount(ls: seq<string>, nodes: seq<Node>, at: seq<nat>)
    requires Scanned(ls, nodes, at)
    ensures |nodes| == |at| && forall k :: 0 <= k < |at| ==> at[k] < |ls|
  {
    hide Meant, TableAt, Offset;
  }

  lemma {:induction false} OneSection(ls: seq<string>, table: string, h: nat, stop: nat, last: nat, h': nat,
      stop': nat, last': nat)
    requires Section(ls, table, h, stop, last) && Section(ls, table, h', stop', last')
    ensures h == h' && stop == stop' && last == last'
  {
    hide Meant;
    assert IsHeading(ls[h]);
    assert h == h';
    assert stop < |ls| ==> IsHeading(ls[stop]);
    assert stop' < |ls| ==> IsHeading(ls[stop']);
  }

  /** There is one way to make an edit, and a text it leaves. */
  lemma {:induction false} OneEdit(ls: seq<string>, key: Key, value: string, remove: bool, e: LineEdit, f: LineEdit)
    requires Asked(ls, key, value, remove, e) && Asked(ls, key, value, remove, f)
    ensures e == f
  {
    hide Meant, Sets, Placeholder, NoHeading;
    if !Unset(ls, key) {
      assert e.at == f.at;
    } else if !remove && !NoHeading(ls, key.table) {
      var line := SettingLine(key.leaf, value);
      var h, stop, last :| Section(ls, key.table, h, stop, last) && GoesIn(ls, key.leaf, line, h, stop, last, e);
      var h', stop', last' :| Section(ls, key.table, h', stop', last')
          && GoesIn(ls, key.leaf, line, h', stop', last', f);
      OneSection(ls, key.table, h, stop, last, h', stop', last');
      hide Section;
    }
  }

  lemma {:induction false} NodeSpan(ls: seq<string>, nodes: seq<Node>, at: seq<nat>, k: nat)
    requires Scanned(ls, nodes, at) && k < |nodes|
    ensures k < |at| && at[k] < |ls| && nodes[k].start == Offset(ls, at[k]) && nodes[k].end == Offset(ls, at[k] + 1)
  {
    hide Meant, TableAt, Offset;
  }

  lemma {:induction false} FirstSetting(ls: seq<string>, nodes: seq<Node>, at: seq<nat>, key: Key, k: nat)
    requires Scanned(ls, nodes, at) && k < |nodes|
    requires nodes[k].meant.Setting? && Key(nodes[k].table, nodes[k].meant.leaf) == key
    requires forall j :: 0 <= j < k ==> !(nodes[j].meant.Setting? && Key(nodes[j].table, nodes[j].meant.leaf) == key)
    ensures at[k] < |ls| && SetAt(ls, key, at[k]) && !Unset(ls, key)
  {
    hide Meant, TableAt, Offset;
    assert NodeIs(ls, nodes[k], at[k]);
    forall i | 0 <= i < at[k] ensures !Sets(ls, i, key) {
      if IsNode(ls[i]) {
        var j := NodeOfLine(ls, nodes, at, i);
        assert NodeIs(ls, nodes[j], i);
      }
    }
  }

  lemma {:induction false} NoSetting(ls: seq<string>, nodes: seq<Node>, at: seq<nat>, key: Key)
    requires Scanned(ls, nodes, at)
    requires forall j :: 0 <= j < |nodes| ==>
               !(nodes[j].meant.Setting? && Key(nodes[j].table, nodes[j].meant.leaf) == key)
    ensures Unset(ls, key)
  {
    hide Meant, TableAt, Offset;
    forall i | 0 <= i < |ls| ensures !Sets(ls, i, key) {
      if IsNode(ls[i]) {
        var j := NodeOfLine(ls, nodes, at, i);
        assert NodeIs(ls, nodes[j], i);
      }
    }
  }

  lemma {:induction false} SectionInside(ls: seq<string>, table: string, h: nat, stop: nat, last: nat)
    requires Section(ls, table, h, stop, last)
    ensures h <= last < stop <= |ls| && !NoHeading(ls, table)
  {
    hide Meant;
  }

  lemma {:induction false} OverPlaceholder(ls: seq<string>, key: Key, line: string, h: nat, stop: nat, last: nat,
      p: nat)
    requires Section(ls, key.table, h, stop, last) && h <= p < stop && Placeholder(ls[p], key.leaf)
    requires forall i :: h <= i < p ==> !Placeholder(ls[i], key.leaf)
    ensures GoesIn(ls, key.leaf, line, h, stop, last, Replace(p, line))
  {
    hide Placeholder;
  }

  lemma {:induction false} AfterTheLast(ls: seq<string>, key: Key, line: string, h: nat, stop: nat, last: nat)
    requires Section(ls, key.table, h, stop, last) && forall i :: h <= i < stop ==> !Placeholder(ls[i], key.leaf)
    ensures GoesIn(ls, key.leaf, line, h, stop, last, Insert(last + 1, line))
  {
    hide Placeholder;
  }
}
