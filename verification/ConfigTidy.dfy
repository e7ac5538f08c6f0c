/** What an edit leaves: lines again, each readable, with everything but the edit where it was. */
module ConfigTidy {
  import opened Wrappers
  import opened ConfigText
  import opened ConfigEdit
  import opened ConfigReading

  // ---- the lines of an edited text -------------------------------------------------------

  lemma {:induction false} LinesUnique(ls: seq<string>)
    requires Lined(ls)
    ensures Lines(Join(ls)) == ls
  {
    if ls != [] {
      var l, rest := ls[0], ls[1..];
      assert ls == [l] + rest;
      JoinConcat([l], rest);
      JoinOne(l);
      LinesUnique(rest);
      var text := Join(ls);
      assert text == l + Join(rest);
      NewlineOfLine(l, rest);
      assert text[..|l|] == l && text[|l|..] == Join(rest);
    }
  }

  lemma {:induction false} NewlineOfLine(l: string, rest: seq<string>)
    requires Lined([l] + rest)
    ensures var text := l + Join(rest); text != "" && LineEnd(text, 0) == |l|
  {
    var text := l + Join(rest);
    assert ([l] + rest)[0] == l;
    assert forall k :: 0 <= k < |l| ==> text[k] == l[k];
    if rest == [] {
      assert text == l;
    }
  }

  lemma {:induction false} FinishedLined(ls: seq<string>)
    requires Lined(ls)
    ensures Lined(Finished(ls)) && |Finished(ls)| == |ls|
    ensures forall i :: 0 <= i < |ls| ==> Ended(Finished(ls)[i])
  {
  }

  lemma {:induction false} LinedThen(a: seq<string>, b: seq<string>)
    requires Lined(a) && Lined(b) && (a != [] ==> Ended(a[|a| - 1]))
    ensures Lined(a + b)
  {
  }

  lemma {:induction false} ReadableThen(a: seq<string>, b: seq<string>)
    requires Readable(a) && Readable(b)
    ensures Readable(a + b)
  {
  }

  lemma {:induction false} FinishedReadable(ls: seq<string>)
    requires Readable(ls)
    ensures Readable(Finished(ls))
  {
    if ls != [] {
      MeantFinished(ls[|ls| - 1]);
    }
  }

  /** A line that can be put anywhere. */
  ghost predicate Written(line: string) {
    IsLine(line) && Ended(line) && !Meant(line).Unreadable?
  }

  lemma {:induction false} OneWritten(line: string)
    requires Written(line)
    ensures Lined([line]) && Readable([line])
  {
  }

  lemma {:induction false} ReplaceTidy(ls: seq<string>, at: nat, line: string)
    requires Lined(ls) && Readable(ls) && Written(line) && at < |ls|
    ensures Lined(Apply(ls, Replace(at, line))) && Readable(Apply(ls, Replace(at, line)))
  {
    hide Meant, IsLine;
    OneWritten(line);
    LinedThen(ls[..at], [line]);
    LinedThen(ls[..at] + [line], ls[at + 1..]);
    ReadableThen(ls[..at], [line]);
    ReadableThen(ls[..at] + [line], ls[at + 1..]);
  }

  lemma {:induction false} InsertTidy(ls: seq<string>, at: nat, line: string)
    requires Lined(ls) && Readable(ls) && Written(line) && 0 < at <= |ls|
    ensures Lined(Apply(ls, Insert(at, line))) && Readable(Apply(ls, Insert(at, line)))
  {
    hide Meant, IsLine;
    OneWritten(line);
    LinedPrefix(ls, at);
    FinishedLined(ls[..at]);
    FinishedReadable(ls[..at]);
    LinedThen(Finished(ls[..at]), [line]);
    LinedThen(Finished(ls[..at]) + [line], ls[at..]);
    ReadableThen(Finished(ls[..at]), [line]);
    ReadableThen(Finished(ls[..at]) + [line], ls[at..]);
  }

  lemma {:induction false} AddSectionTidy(ls: seq<string>, table: string, line: string)
    requires Lined(ls) && Readable(ls) && Written(line) && BareTable(table)
    ensures Lined(Apply(ls, AddSection(table, line))) && Readable(Apply(ls, AddSection(table, line)))
  {
    hide Meant, IsLine, HeadingLine;
    var gap := if ls == [] then [] else ["\n"];
    MeantBlank();
    MeantHeading(table);
    OneWritten("\n");
    OneWritten(HeadingLine(table));
    OneWritten(line);
    FinishedLined(ls);
    FinishedReadable(ls);
    LinedThen([HeadingLine(table)], [line]);
    ReadableThen([HeadingLine(table)], [line]);
    assert [HeadingLine(table)] + [line] == [HeadingLine(table), line];
    LinedThen(Finished(ls), gap);
    ReadableThen(Finished(ls), gap);
    LinedThen(Finished(ls) + gap, [HeadingLine(table), line]);
    ReadableThen(Finished(ls) + gap, [HeadingLine(table), line]);
  }

  /** A text that reads as settings, each given once. */
  ghost predicate Tidy(ls: seq<string>, lists: set<string>) {
    Lined(ls) && Readable(ls) && OnceFrom(UNREAD, ls, lists)
  }

  lemma {:induction false} EditTidy(ls: seq<string>, key: Key, value: string, remove: bool, e: LineEdit,
      lists: set<string>)
    requires Tidy(ls, lists) && Writable(key, value) && !Listed(key.table, lists)
    requires Fits(ls, e) && Asked(ls, key, value, remove, e)
    ensures Tidy(Apply(ls, e), lists) && Lines(Join(Apply(ls, e))) == Apply(ls, e)
  {
    hide Meant, IsLine, HeadingLine, SettingLine, OnceFrom, Lines, Join, Lined, Readable;
    MeantSetting(key.leaf, value);
    MeantComment(key.leaf, value);
    EditReads(ls, key, value, remove, e, lists);
    match e {
      case Keep =>
      case Replace(at, line) => ReplaceTidy(ls, at, line);
      case Insert(at, line) => InsertTidy(ls, at, line);
      case AddSection(table, line) => AddSectionTidy(ls, table, line);
    }
    LinesUnique(Apply(ls, e));
  }

  // ---- every byte but those of the edit ------------------------------------------------------

  /** What an edit takes out of the text and puts in, between a part before it and a part after it. */
  ghost predicate Local(text: string, out: string, before: string, gone: string, put: string, after: string) {
    text == before + gone + after && out == before + put + after
  }

  /** Everything outside the edited line or the added section stays, byte for byte. */
  lemma {:induction false} EditIsLocal(ls: seq<string>, e: LineEdit)
    requires Lined(ls) && Fits(ls, e)
    ensures var text, out := Join(ls), Join(Apply(ls, e));
            match e
            case Keep => out == text
            case Replace(at, line) => Local(text, out, Join(ls[..at]), ls[at], line, Join(ls[at + 1..]))
            case Insert(at, line) =>
              Local(text, out, Join(ls[..at]), "", (if Ended(ls[at - 1]) then "" else "\n") + line, Join(ls[at..]))
            case AddSection(table, line) =>
              Local(text, out, text, "",
                    (if ls == [] then "" else if Ended(ls[|ls| - 1]) then "\n" else "\n\n")
                        + (HeadingLine(table) + line), "")
  {
    match e {
      case Keep =>
      case Replace(at, line) =>
        ReplaceJoins(ls, at, line);
      case Insert(at, line) =>
        InsertJoins(ls, at, line);
      case AddSection(table, line) =>
        AddSectionJoins(ls, table, line);
    }
  }

  lemma {:induction false} ReplaceJoins(ls: seq<string>, at: nat, line: string)
    requires at < |ls|
    ensures Local(Join(ls), Join(Apply(ls, Replace(at, line))), Join(ls[..at]), ls[at], line, Join(ls[at + 1..]))
  {
    hide Join;
    LinesAround(ls, at);
    JoinsAround(ls[..at], ls[at], ls[at + 1..]);
    JoinsAround(ls[..at], line, ls[at + 1..]);
  }

  lemma {:induction false} JoinsAround(pre: seq<string>, x: string, post: seq<string>)
    ensures Join(pre + [x] + post) == Join(pre) + x + Join(post)
  {
    JoinConcat(pre + [x], post);
    JoinConcat(pre, [x]);
    JoinOne(x);
  }

  lemma {:induction false} InsertJoins(ls: seq<string>, at: nat, line: string)
    requires Lined(ls) && 0 < at <= |ls|
    ensures Local(Join(ls), Join(Apply(ls, Insert(at, line))), Join(ls[..at]), "",
                  (if Ended(ls[at - 1]) then "" else "\n") + line, Join(ls[at..]))
  {
    hide Join;
    LinedPrefix(ls, at);
    FinishedJoin(ls[..at]);
    JoinEnds(ls[..at]);
    JoinsAround(Finished(ls[..at]), line, ls[at..]);
    assert ls == ls[..at] + ls[at..];
    JoinConcat(ls[..at], ls[at..]);
    assert Join(ls[..at]) + "" == Join(ls[..at]);
    assert Join(ls[..at]) + ("\n" + line) == Join(ls[..at]) + "\n" + line;
    assert "" + line == line;
  }

  lemma {:induction false} AddSectionJoins(ls: seq<string>, table: string, line: string)
    requires Lined(ls)
    ensures var text := Join(ls);
            Local(text, Join(Apply(ls, AddSection(table, line))), text, "",
                  (if ls == [] then "" else if Ended(ls[|ls| - 1]) then "\n" else "\n\n")
                      + (HeadingLine(table) + line), "")
  {
    hide Join, HeadingLine, Finished, Lined, Local;
    var gap, rest := if ls == [] then [] else ["\n"], HeadingLine(table) + line;
    TwoLines(HeadingLine(table), line);
    JoinConcat(Finished(ls) + gap, [HeadingLine(table), line]);
    JoinConcat(Finished(ls), gap);
    FinishedJoin(ls);
    JoinOne("\n");
    NoLines();
    if ls != [] {
      JoinEnds(ls);
      Glue(Join(ls), rest);
    } else {
      assert "" + rest == rest;
      Glued("", rest);
    }
  }

  lemma {:induction false} Glued(text: string, put: string)
    ensures Local(text, text + put, text, "", put, "")
  {
  }

  lemma {:induction false} TwoLines(a: string, b: string)
    ensures Join([a, b]) == a + b
  {
    assert [a] + [b] == [a, b];
    JoinConcat([a], [b]);
    JoinOne(a);
    JoinOne(b);
  }

  lemma {:induction false} Glue(text: string, rest: string)
    ensures Local(text, text + "\n" + rest, text, "", "\n" + rest, "")
    ensures Local(text, (text + "\n") + "\n" + rest, text, "", "\n\n" + rest, "")
  {
  }
}
