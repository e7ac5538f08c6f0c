/** What a run reached for and what it drew on. */
module RunSummary {
  import opened Wrappers

  type CallId = string
  type Seq = nat
  type RunId = string

  const MAX_LISTED_SOURCES := 12

  /** A page or a file. */
  datatype Source = Source(kind: string, ref: string)

  /** What a record is told of a run: its tool calls, and how far its conversation was folded. `source` is
      what a call would draw on. */
  datatype Event =
    | Requested(call: CallId, source: Option<Source>)
    | Finished(name: string, callId: CallId, isError: bool, ms: int, seqNo: Seq)
    | Folded(through: Seq)

  datatype ToolUse = ToolUse(name: string, calls: nat, failed: nat, ms: int, slowest: int)

  datatype Drawn = Drawn(source: Source, seqNo: Seq)

  // ---- what the log says ------------------------------------------------------------------

  /** The times a tool was called, in order. */
  function CallsOf(log: seq<Event>, name: string): (done: seq<Event>)
    ensures forall e :: e in done ==> e.Finished? && e.name == name
  {
    if log == [] then []
    else
      var done := CallsOf(log[..|log| - 1], name);
      if log[|log| - 1].Finished? && log[|log| - 1].name == name then done + [log[|log| - 1]] else done
  }

  function Failures(done: seq<Event>): nat
    requires forall e :: e in done ==> e.Finished?
  {
    if done == [] then 0
    else Failures(done[..|done| - 1]) + (assert done[|done| - 1] in done; if done[|done| - 1].isError then 1 else 0)
  }

  function TimeOf(done: seq<Event>): int
    requires forall e :: e in done ==> e.Finished?
  {
    if done == [] then 0 else TimeOf(done[..|done| - 1]) + (assert done[|done| - 1] in done; done[|done| - 1].ms)
  }

  /** At least as long as any of them, and as long as one of them or nothing. */
  ghost predicate IsSlowest(done: seq<Event>, slowest: int)
    requires forall e :: e in done ==> e.Finished?
  {
    && slowest >= 0
    && (forall e :: e in done ==> e.ms <= slowest)
    && (slowest == 0 || exists e :: e in done && e.ms == slowest)
  }

  /** The figures of one tool are those of its calls in the log. */
  ghost predicate UseIs(use: ToolUse, log: seq<Event>, name: string) {
    var done := CallsOf(log, name);
    && use.name == name && use.calls == |done| && use.failed == Failures(done)
    && use.ms == TimeOf(done) && IsSlowest(done, use.slowest)
  }

  /** The calls waiting for their result, with what they would draw on. */
  function Pending(log: seq<Event>): map<CallId, Source> {
    if log == [] then map[]
    else
      var before := Pending(log[..|log| - 1]);
      match log[|log| - 1]
      case Requested(call, source) => if source.Some? then before[call := source.value] else before
      case Finished(_, call, _, _, _) => before - {call}
      case Folded(_) => before
  }

  /** How far the last fold reached. */
  function FoldedThrough(log: seq<Event>): Seq {
    if log == [] then 0
    else if log[|log| - 1].Folded? then log[|log| - 1].through
    else FoldedThrough(log[..|log| - 1])
  }

  /** `i` is where `source` was drawn on: a call that asked for it came back without an error. */
  ghost predicate DrawnAt(log: seq<Event>, i: nat, source: Source) {
    && i < |log| && log[i].Finished? && !log[i].isError
    && log[i].callId in Pending(log[..i]) && Pending(log[..i])[log[i].callId] == source
  }

  ghost predicate DrawnOn(log: seq<Event>, source: Source) {
    exists i: nat :: DrawnAt(log, i, source)
  }

  /** Where a source was first drawn on. */
  ghost predicate FirstDrawn(log: seq<Event>, d: Drawn) {
    exists i: nat :: DrawnAt(log, i, d.source) && log[i].seqNo == d.seqNo && forall j: nat :: j < i ==>
        !DrawnAt(log, j, d.source)
  }

  ghost predicate Distinct(sources: seq<Drawn>) {
    forall i, j :: 0 <= i < j < |sources| ==> sources[i].source != sources[j].source
  }

  ghost predicate Lists(sources: seq<Drawn>, source: Source) {
    exists i :: 0 <= i < |sources| && sources[i].source == source
  }

  /** Each source drawn on once, with where it was first drawn on. */
  ghost predicate SourcesAre(sources: seq<Drawn>, log: seq<Event>) {
    && Distinct(sources)
    && (forall source :: Lists(sources, source) <==> DrawnOn(log, source))
    && (forall i :: 0 <= i < |sources| ==> FirstDrawn(log, sources[i]))
  }

  // ---- one event more -------------------------------------------------------------------------

  lemma {:induction false} CallsMore(log: seq<Event>, e: Event, name: string)
    ensures CallsOf(log + [e], name) == CallsOf(log, name) + (if e.Finished? && e.name == name then [e] else [])
  {
    assert (log + [e])[..|log|] == log;
  }

  function Counted(use: ToolUse, isError: bool, ms: int): ToolUse {
    use.(calls := use.calls + 1, failed := use.failed + (if isError then 1 else 0), ms := use.ms + ms,
         slowest := if ms > use.slowest then ms else use.slowest)
  }

  lemma {:induction false} UseMore(use: ToolUse, log: seq<Event>, e: Event)
    requires e.Finished? && UseIs(use, log, e.name)
    ensures UseIs(Counted(use, e.isError, e.ms), log + [e], e.name)
  {
    var done := CallsOf(log, e.name);
    CallsMore(log, e, e.name);
    assert (done + [e])[..|done|] == done;
    SlowestMore(done, e, use.slowest);
  }

  lemma {:induction false} SlowestMore(done: seq<Event>, e: Event, slowest: int)
    requires e.Finished? && (forall d :: d in done ==> d.Finished?) && IsSlowest(done, slowest)
    ensures IsSlowest(done + [e], if e.ms > slowest then e.ms else slowest)
  {
    assert e in done + [e];
    if slowest > 0 {
      var d :| d in done && d.ms == slowest;
      assert d in done + [e];
    }
  }

  lemma {:induction false} UseOther(use: ToolUse, log: seq<Event>, e: Event, name: string)
    requires UseIs(use, log, name) && !(e.Finished? && e.name == name)
    ensures UseIs(use, log + [e], name)
  {
    CallsMore(log, e, name);
  }

  lemma {:induction false} PendingMore(log: seq<Event>, e: Event)
    ensures Pending(log + [e]) == match e
                                  case Requested(call, source) => if source.Some?
                                      then Pending(log)[call := source.value] else Pending(log)
                                  case Finished(_, call, _, _, _) => Pending(log) - {call}
                                  case Folded(_) => Pending(log)
  {
    assert (log + [e])[..|log|] == log;
  }

  lemma {:induction false} DrawnMore(log: seq<Event>, e: Event, i: nat, source: Source)
    ensures i < |log| ==> (DrawnAt(log + [e], i, source) <==> DrawnAt(log, i, source))
    ensures DrawnAt(log + [e], |log|, source) <==>
            e.Finished? && !e.isError && e.callId in Pending(log) && Pending(log)[e.callId] == source
  {
    assert (log + [e])[..|log|] == log;
    if i < |log| {
      assert (log + [e])[..i] == log[..i];
    }
  }

  /** What this event draws on, if anything. */
  ghost predicate Draws(log: seq<Event>, e: Event, source: Source) {
    e.Finished? && !e.isError && e.callId in Pending(log) && Pending(log)[e.callId] == source
  }

  lemma {:induction false} DrawnOnMore(log: seq<Event>, e: Event, source: Source)
    ensures DrawnOn(log + [e], source) <==> DrawnOn(log, source) || Draws(log, e, source)
  {
    DrawnMore(log, e, 0, source);
    if i: nat :| DrawnAt(log, i, source) {
      DrawnMore(log, e, i, source);
      assert DrawnAt(log + [e], i, source);
    }
    if i: nat :| DrawnAt(log + [e], i, source) {
      DrawnMore(log, e, i, source);
    }
    if Draws(log, e, source) {
      assert DrawnAt(log + [e], |log|, source);
    }
  }

  lemma {:induction false} FirstStays(log: seq<Event>, e: Event, d: Drawn)
    requires FirstDrawn(log, d)
    ensures FirstDrawn(log + [e], d)
  {
    var i: nat :| DrawnAt(log, i, d.source) && log[i].seqNo == d.seqNo && forall j: nat :: j < i ==>
        !DrawnAt(log, j, d.source);
    DrawnMore(log, e, i, d.source);
    forall j: nat | j < i ensures !DrawnAt(log + [e], j, d.source) {
      DrawnMore(log, e, j, d.source);
    }
    assert (log + [e])[i] == log[i];
  }

  lemma {:induction false} FirstHere(log: seq<Event>, e: Event, source: Source)
    requires Draws(log, e, source) && !DrawnOn(log, source)
    ensures FirstDrawn(log + [e], Drawn(source, e.seqNo))
  {
    DrawnMore(log, e, 0, source);
    assert (log + [e])[|log|] == e;
    forall j: nat | j < |log| ensures !DrawnAt(log + [e], j, source) {
      DrawnMore(log, e, j, source);
    }
  }

  lemma {:induction false} SourcesStay(sources: seq<Drawn>, log: seq<Event>, e: Event)
    requires SourcesAre(sources, log)
    requires forall source :: Draws(log, e, source) ==> Lists(sources, source)
    ensures SourcesAre(sources, log + [e])
  {
    forall source ensures Lists(sources, source) <==> DrawnOn(log + [e], source) {
      DrawnOnMore(log, e, source);
    }
    forall i | 0 <= i < |sources| ensures FirstDrawn(log + [e], sources[i]) {
      FirstStays(log, e, sources[i]);
    }
  }

  lemma {:induction false} SourceComes(sources: seq<Drawn>, log: seq<Event>, e: Event, source: Source)
    requires SourcesAre(sources, log) && Draws(log, e, source) && !Lists(sources, source)
    ensures SourcesAre(sources + [Drawn(source, e.seqNo)], log + [e])
  {
    var now := sources + [Drawn(source, e.seqNo)];
    FirstHere(log, e, source);
    forall x ensures Lists(now, x) <==> DrawnOn(log + [e], x) {
      DrawnOnMore(log, e, x);
      ListsMore(sources, Drawn(source, e.seqNo), x);
    }
    forall i | 0 <= i < |now| ensures FirstDrawn(log + [e], now[i]) {
      if i < |sources| {
        FirstStays(log, e, sources[i]);
      }
    }
  }

  lemma {:induction false} ListsMore(sources: seq<Drawn>, d: Drawn, x: Source)
    ensures Lists(sources + [d], x) <==> Lists(sources, x) || d.source == x
  {
    var now := sources + [d];
    assert now[|sources|] == d;
    if i :| 0 <= i < |sources| && sources[i].source == x {
      assert now[i] == sources[i];
    }
  }

  // ---- the record of one run -------------------------------------------------------------------

  ghost predicate RecordOk(tools: map<string, ToolUse>, pending: map<CallId, Source>, sources: seq<Drawn>,
      log: seq<Event>) {
    && (forall name :: name in tools ==> UseIs(tools[name], log, name))
    && (forall name :: name !in tools ==> CallsOf(log, name) == [])
    && pending == Pending(log) && SourcesAre(sources, log)
  }

  lemma {:induction false} NothingSeen()
    ensures RecordOk(map[], map[], [], [])
  {
  }

  function UsedOnce(tools: map<string, ToolUse>, name: string, isError: bool, ms: int): map<string, ToolUse> {
    tools[name := Counted(if name in tools then tools[name] else ToolUse(name, 0, 0, 0, 0), isError, ms)]
  }

  lemma {:induction false} FinishedOk(tools: map<string, ToolUse>, pending: map<CallId, Source>, sources: seq<Drawn>,
                                      log: seq<Event>, e: Event, now: seq<Drawn>)
    requires RecordOk(tools, pending, sources, log) && e.Finished? && SourcesAre(now, log + [e])
    ensures RecordOk(UsedOnce(tools, e.name, e.isError, e.ms), pending - {e.callId}, now, log + [e])
  {
    hide CallsOf, SourcesAre, Pending;
    PendingMore(log, e);
    var used := UsedOnce(tools, e.name, e.isError, e.ms);
    if e.name !in tools {
      FirstUse(log, e.name);
    }
    UseMore(if e.name in tools then tools[e.name] else ToolUse(e.name, 0, 0, 0, 0), log, e);
    forall name ensures if name in used then UseIs(used[name], log + [e], name) else CallsOf(log + [e], name) == [] {
      if name != e.name {
        CallsMore(log, e, name);
        if name in tools {
          UseOther(tools[name], log, e, name);
        }
      }
    }
  }

  lemma {:induction false} FirstUse(log: seq<Event>, name: string)
    requires CallsOf(log, name) == []
    ensures UseIs(ToolUse(name, 0, 0, 0, 0), log, name)
  {
  }

  lemma {:induction false} RequestedOk(tools: map<string, ToolUse>, pending: map<CallId, Source>, sources: seq<Drawn>,
      log: seq<Event>, e: Event)
    requires RecordOk(tools, pending, sources, log) && e.Requested?
    ensures RecordOk(tools, if e.source.Some? then pending[e.call := e.source.value] else pending, sources, log + [e])
  {
    hide CallsOf, SourcesAre, Pending;
    PendingMore(log, e);
    SourcesStay(sources, log, e);
    forall name ensures CallsOf(log + [e], name) == CallsOf(log, name) {
      CallsMore(log, e, name);
    }
  }

  /** A fold is no call and draws on nothing. */
  lemma {:induction false} FoldedOk(tools: map<string, ToolUse>, pending: map<CallId, Source>, sources: seq<Drawn>,
      log: seq<Event>, e: Event)
    requires RecordOk(tools, pending, sources, log) && e.Folded?
    ensures RecordOk(tools, pending, sources, log + [e])
  {
    hide CallsOf, SourcesAre, Pending;
    PendingMore(log, e);
    SourcesStay(sources, log, e);
    forall name ensures CallsOf(log + [e], name) == CallsOf(log, name) {
      CallsMore(log, e, name);
    }
  }

  lemma {:induction false} FoldedMore(log: seq<Event>, e: Event)
    ensures FoldedThrough(log + [e]) == if e.Folded? then e.through else FoldedThrough(log)
  {
    assert (log + [e])[..|log|] == log;
  }

  /** What a summary lists of a source: whether it is still in front of the model as itself. */
  datatype Listed = Listed(source: Source, retained: bool)

  datatype Summary = Summary(tools: seq<ToolUse>, sources: seq<Listed>, omitted: nat)

  /** Alphabetical order of names. */
  predicate Less(a: string, b: string) {
    b != "" && (a == "" || a[0] < b[0] || (a[0] == b[0] && Less(a[1..], b[1..])))
  }

  /** Where the time went first, then what was used most, then by name. */
  predicate Before(a: ToolUse, b: ToolUse) {
    if a.ms != b.ms then a.ms > b.ms
    else if a.calls != b.calls then a.calls > b.calls
    else Less(a.name, b.name)
  }

  lemma {:induction false} LessIsTotal(a: string, b: string)
    ensures Less(a, b) || Less(b, a) || a == b
    ensures !(Less(a, b) && Less(b, a)) && !Less(a, a)
  {
    if a != "" && b != "" {
      LessIsTotal(a[1..], b[1..]);
      assert a == [a[0]] + a[1..] && b == [b[0]] + b[1..];
    }
    if a != "" {
      LessIsIrreflexive(a);
    }
  }

  lemma {:induction false} LessIsIrreflexive(a: string)
    ensures !Less(a, a)
  {
    if a != "" {
      LessIsIrreflexive(a[1..]);
    }
  }

  lemma {:induction false} LessIsTransitive(a: string, b: string, c: string)
    requires Less(a, b) && Less(b, c)
    ensures Less(a, c)
  {
    if a != "" && a[0] == b[0] && b[0] == c[0] {
      LessIsTransitive(a[1..], b[1..], c[1..]);
    }
  }

  lemma {:induction false} BeforeIsOrder(a: ToolUse, b: ToolUse, c: ToolUse)
    ensures a.name != b.name ==> Before(a, b) || Before(b, a)
    ensures Before(a, b) && Before(b, c) ==> Before(a, c)
    ensures !Before(a, a)
  {
    LessIsTotal(a.name, b.name);
    LessIsIrreflexive(a.name);
    if Less(a.name, b.name) && Less(b.name, c.name) {
      LessIsTransitive(a.name, b.name, c.name);
    }
  }

  ghost predicate InOrder(tools: seq<ToolUse>) {
    forall i, j :: 0 <= i < j < |tools| ==> Before(tools[i], tools[j])
  }

  /** The tool that took longest comes first, among those that took the same the one used most, and then the
      alphabet decides. */
  lemma {:induction false} OrderMeans(tools: seq<ToolUse>, i: nat, j: nat)
    requires InOrder(tools) && i < j < |tools|
    ensures tools[i].ms >= tools[j].ms
    ensures tools[i].ms == tools[j].ms ==> tools[i].calls >= tools[j].calls
    ensures tools[i].ms == tools[j].ms && tools[i].calls == tools[j].calls ==> Less(tools[i].name, tools[j].name)
  {
    assert Before(tools[i], tools[j]);
  }

  /** The tools, each once. */
  ghost predicate AllOf(sorted: seq<ToolUse>, tools: map<string, ToolUse>) {
    && |sorted| == |tools|
    && (forall name :: name in tools ==> tools[name] in sorted)
    && (forall use :: use in sorted ==> use.name in tools && tools[use.name] == use)
  }

  /** Picks the tool that comes first. */
  method First(tools: map<string, ToolUse>, left: set<string>) returns (name: string)
    requires left != {} && left <= tools.Keys && forall n :: n in tools ==> tools[n].name == n
    ensures name in left && forall n :: n in left && n != name ==> Before(tools[name], tools[n])
  {
    name :| name in left;
    var rest := left - {name};
    while rest != {}
      invariant name in left && rest <= left && name !in rest
      invariant forall n :: n in left && n !in rest && n != name ==> Before(tools[name], tools[n])
      decreases |rest|
    {
      var n :| n in rest;
      rest := rest - {n};
      BeforeIsOrder(tools[n], tools[name], tools[name]);
      if Before(tools[n], tools[name]) {
        forall m | m in left && m !in rest && m != n ensures Before(tools[n], tools[m]) {
          BeforeIsOrder(tools[n], tools[name], tools[m]);
        }
        name := n;
      }
    }
  }

  /** The tools in the order a reader wants them. */
  method Sorted(tools: map<string, ToolUse>) returns (sorted: seq<ToolUse>)
    requires forall n :: n in tools ==> tools[n].name == n
    ensures InOrder(sorted) && AllOf(sorted, tools)
  {
    sorted := [];
    var left := tools.Keys;
    while left != {}
      invariant left <= tools.Keys && |sorted| + |left| == |tools.Keys| && InOrder(sorted)
      invariant forall n :: n in tools && n !in left ==> tools[n] in sorted
      invariant forall use :: use in sorted ==> use.name in tools && tools[use.name] == use && use.name !in left
      invariant forall i, n :: 0 <= i < |sorted| && n in left ==> Before(sorted[i], tools[n])
      decreases |left|
    {
      var name := First(tools, left);
      sorted := sorted + [tools[name]];
      left := left - {name};
    }
    assert |tools| == |tools.Keys|;
  }

  /** Everything that is listed, in the order it was first drawn on. */
  ghost predicate ListedIs(listed: seq<Listed>, sources: seq<Drawn>, compactedThrough: Seq) {
    && |listed| <= 12 && |listed| <= |sources|
    && forall i :: 0 <= i < |listed| ==> listed[i] == Listed(sources[i].source, sources[i].seqNo > compactedThrough)
  }

  class RunRecord {
    var tools: map<string, ToolUse>
    var pending: map<CallId, Source>
    var sources: seq<Drawn>
    var compactedThrough: Seq

    ghost var history: seq<Event>

    ghost predicate Valid()
      reads this
    {
      RecordOk(tools, pending, sources, history) && compactedThrough == FoldedThrough(history)
    }

    constructor ()
      ensures Valid() && history == [] && compactedThrough == 0
    {
      tools, pending, sources, compactedThrough := map[], map[], [], 0;
      history := [];
      NothingSeen();
    }

    method Requests(call: CallId, source: Option<Source>)
      requires Valid()
      modifies this
      ensures Valid() && history == old(history) + [Requested(call, source)]
    {
      hide RecordOk, FoldedThrough;
      FoldedMore(history, Requested(call, source));
      RequestedOk(tools, pending, sources, history, Requested(call, source));
      if source.Some? {
        pending := pending[call := source.value];
      }
      history := history + [Requested(call, source)];
    }

    /** Counts a call, and promotes what it drew on only if it came back without an error. */
    method Completes(name: string, call: CallId, isError: bool, ms: int, seqNo: Seq)
      requires Valid()
      modifies this
      ensures Valid() && history == old(history) + [Finished(name, call, isError, ms, seqNo)]
    {
      hide RecordOk, SourcesAre, UseIs, Pending, Draws, Lists, FoldedThrough;
      ghost var e := Finished(name, call, isError, ms, seqNo);
      FoldedMore(history, e);
      ghost var was := pending;
      var use := if name in tools then tools[name] else ToolUse(name, 0, 0, 0, 0);
      use := use.(calls := use.calls + 1);
      if isError {
        use := use.(failed := use.failed + 1);
      }
      use := use.(ms := use.ms + ms);
      if ms > use.slowest {
        use := use.(slowest := ms);
      }
      tools := tools[name := use];
      var waiting := call in pending;
      var source := if waiting then pending[call] else Source("", "");
      pending := pending - {call};
      var known := false;
      if waiting && !isError {
        for i := 0 to |sources|
          invariant known <==> exists j :: 0 <= j < i && sources[j].source == source
        {
          if sources[i].source == source {
            known := true;
          }
        }
      }
      Promotes(old(tools), was, sources, history, e);
      if waiting && !isError && !known {
        sources := sources + [Drawn(source, seqNo)];
      }
      history := history + [e];
    }

    /** Everything up to there is a summary now, which decides whether a source is still in front of the model. */
    method Compacts(through: Seq)
      requires Valid()
      modifies this
      ensures Valid() && history == old(history) + [Folded(through)] && compactedThrough == through
      ensures tools == old(tools) && sources == old(sources)
    {
      hide RecordOk, FoldedThrough;
      FoldedMore(history, Folded(through));
      FoldedOk(tools, pending, sources, history, Folded(through));
      compactedThrough := through;
      history := history + [Folded(through)];
    }

    method Summarise() returns (summary: Summary)
      requires Valid()
      ensures InOrder(summary.tools) && AllOf(summary.tools, tools)
      ensures ListedIs(summary.sources, sources, compactedThrough) && |summary.sources| + summary.omitted == |sources|
      ensures summary.omitted > 0 ==> |summary.sources| == 12
    {
      hide RecordOk, InOrder, AllOf;
      NamesAre(tools, pending, sources, history);
      var sorted := Sorted(tools);
      var listed, omitted := ListSources(sources, compactedThrough);
      return Summary(sorted, listed, omitted);
    }
  }

  method ListSources(sources: seq<Drawn>, compactedThrough: Seq) returns (listed: seq<Listed>, omitted: nat)
    ensures ListedIs(listed, sources, compactedThrough) && |listed| + omitted == |sources|
    ensures omitted > 0 ==> |listed| == 12
  {
    listed, omitted := [], 0;
    for i := 0 to |sources|
      invariant |listed| + omitted == i && ListedIs(listed, sources, compactedThrough)
      invariant omitted > 0 ==> |listed| == MAX_LISTED_SOURCES
    {
      if |listed| >= MAX_LISTED_SOURCES {
        omitted := omitted + 1;
        continue;
      }
      listed := listed + [Listed(sources[i].source, sources[i].seqNo > compactedThrough)];
    }
  }

  /** What was read of a source is in front of the model as itself: it was drawn on past what the last fold reached. */
  ghost predicate InFront(log: seq<Event>, source: Source) {
    exists i: nat :: DrawnAt(log, i, source) && log[i].seqNo > FoldedThrough(log)
  }

  /** It was read before what the last fold reached, and once more after. */
  ghost predicate ReadAgain(log: seq<Event>, source: Source) {
    exists i: nat, j: nat :: DrawnAt(log, i, source) && DrawnAt(log, j, source)
        && log[i].seqNo <= FoldedThrough(log) < log[j].seqNo
  }

  ghost predicate NumberedInOrder(log: seq<Event>) {
    forall i, j :: 0 <= i < j < |log| && log[i].Finished? && log[j].Finished? ==> log[i].seqNo < log[j].seqNo
  }

  /** A source that is marked is in front of the model. One that is not may be all the same: the mark goes by the first
      reading, and agrees with the conversation exactly when the source was not read again after a fold. */
  lemma {:induction false} MarkAgreesIff(log: seq<Event>, d: Drawn)
    requires FirstDrawn(log, d) && NumberedInOrder(log)
    ensures d.seqNo > FoldedThrough(log) ==> InFront(log, d.source)
    ensures (d.seqNo > FoldedThrough(log) <==> InFront(log, d.source)) <==> !ReadAgain(log, d.source)
  {
    hide Pending, FoldedThrough;
    var i: nat :| DrawnAt(log, i, d.source) && log[i].seqNo == d.seqNo && forall j: nat :: j < i ==>
        !DrawnAt(log, j, d.source);
    if d.seqNo <= FoldedThrough(log) && InFront(log, d.source) {
      var j: nat :| DrawnAt(log, j, d.source) && log[j].seqNo > FoldedThrough(log);
      assert ReadAgain(log, d.source);
    }
    if h: nat, j: nat :| DrawnAt(log, h, d.source) && DrawnAt(log, j, d.source)
                         && log[h].seqNo <= FoldedThrough(log) < log[j].seqNo {
      FirstIsEarliest(log, d.source, i, h);
    }
  }

  lemma {:induction false} FirstIsEarliest(log: seq<Event>, source: Source, i: nat, h: nat)
    requires DrawnAt(log, i, source) && DrawnAt(log, h, source) && NumberedInOrder(log)
    requires forall j: nat :: j < i ==> !DrawnAt(log, j, source)
    ensures log[i].seqNo <= log[h].seqNo
  {
    hide Pending;
    assert i <= h;
  }

  lemma {:induction false} NamesAre(tools: map<string, ToolUse>, pending: map<CallId, Source>, sources: seq<Drawn>,
      log: seq<Event>)
    requires RecordOk(tools, pending, sources, log)
    ensures forall n :: n in tools ==> tools[n].name == n
  {
  }

  /** What a finished call does to the record, whether or not it draws on something new. */
  lemma {:induction false} Promotes(tools: map<string, ToolUse>, pending: map<CallId, Source>, sources: seq<Drawn>,
      log: seq<Event>, e: Event)
    requires RecordOk(tools, pending, sources, log) && e.Finished?
    ensures var source := if e.callId in pending then pending[e.callId] else Source("", "");
            var isNew := e.callId in pending && !e.isError && !exists j ::
                0 <= j < |sources| && sources[j].source == source;
            RecordOk(UsedOnce(tools, e.name, e.isError, e.ms), pending - {e.callId},
                     if isNew then sources + [Drawn(source, e.seqNo)] else sources, log + [e])
  {
    var source := if e.callId in pending then pending[e.callId] else Source("", "");
    var isNew := e.callId in pending && !e.isError && !exists j :: 0 <= j < |sources| && sources[j].source == source;
    hide UseIs, Pending, CallsOf;
    if isNew {
      SourceComes(sources, log, e, source);
    } else {
      SourcesStay(sources, log, e);
    }
    FinishedOk(tools, pending, sources, log, e, if isNew then sources + [Drawn(source, e.seqNo)] else sources);
  }

  /** As many sources are listed or left out as there are distinct ones the log drew on. */
  lemma {:induction false} CountsDistinctSources(sources: seq<Drawn>, log: seq<Event>) returns (distinct: set<Source>)
    requires SourcesAre(sources, log)
    ensures |distinct| == |sources| && forall source :: source in distinct <==> DrawnOn(log, source)
  {
    hide DrawnOn, FirstDrawn;
    distinct := {};
    for i := 0 to |sources|
      invariant |distinct| == i
      invariant forall source :: source in distinct <==> exists j :: 0 <= j < i && sources[j].source == source
    {
      distinct := distinct + {sources[i].source};
    }
  }

  const PAGE := Source("web", "x")

  /** A page is read, folded away, and read again. */
  const READ_TWICE: seq<Event> := [
    Requested("1", Some(PAGE)), Finished("web_read", "1", false, 0, 2), Folded(2),
    Requested("2", Some(PAGE)), Finished("web_read", "2", false, 0, 6)]

  /** It is in front of the model and is not marked. */
  lemma {:induction false} AReadingIsMissed()
    ensures FirstDrawn(READ_TWICE, Drawn(PAGE, 2)) && FoldedThrough(READ_TWICE) == 2 && InFront(READ_TWICE, PAGE)
  {
    var log := READ_TWICE;
    assert log[..1][..0] == [] && log[..2][..1] == log[..1] && log[..3][..2] == log[..2] && log[..4][..3] == log[..3];
    assert log[..5] == log && log[..5][..4] == log[..4];
    assert Pending(log[..1]) == map["1" := PAGE];
    assert Pending(log[..2]) == map[];
    assert Pending(log[..3]) == map[];
    assert Pending(log[..4]) == map["2" := PAGE];
    assert FoldedThrough(log[..4]) == FoldedThrough(log[..3]) == 2;
    assert DrawnAt(log, 1, PAGE) && DrawnAt(log, 4, PAGE) && !DrawnAt(log, 0, PAGE);
  }
}
