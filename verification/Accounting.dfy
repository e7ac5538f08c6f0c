/** Which records a run's tool calls count towards: its own, and its parent's when it is a worker. */
module Accounting {
  import opened Wrappers
  import opened RunSummary

  /** Something a run did. A worker names its parent; any other run names nobody. `delivered` is whether the run
      has somewhere outside to be delivered to. */
  datatype Observed = Observed(run: RunId, parent: Option<RunId>, delivered: bool, event: Event)

  /** A call counts for the run and its parent whether or not anything is delivered; a fold only for a run of its
      own that is delivered somewhere. */
  predicate CountsFor(o: Observed, id: RunId) {
    if o.event.Folded? then o.run == id && o.parent.None? && o.delivered
    else o.run == id || o.parent == Some(id)
  }

  /** What counts towards a run, in order. */
  function Told(log: seq<Observed>, id: RunId): seq<Event> {
    if log == [] then []
    else
      var before := Told(log[..|log| - 1], id);
      if CountsFor(log[|log| - 1], id) then before + [log[|log| - 1].event] else before
  }

  lemma {:induction false} ToldMore(log: seq<Observed>, o: Observed, id: RunId)
    ensures Told(log + [o], id) == Told(log, id) + (if CountsFor(o, id) then [o.event] else [])
  {
    assert (log + [o])[..|log|] == log;
  }

  // ---- every call counts once for its run and once for its parent ------------------------------

  function CallsIn(events: seq<Event>): nat {
    if events == [] then 0
    else CallsIn(events[..|events| - 1]) + (if events[|events| - 1].Folded? then 0 else 1)
  }

  /** How many calls a run made itself. */
  function MadeBy(log: seq<Observed>, id: RunId): nat {
    if log == [] then 0
    else MadeBy(log[..|log| - 1], id)
         + (if log[|log| - 1].run == id && !log[|log| - 1].event.Folded? then 1 else 0)
  }

  /** How many calls its workers made. */
  function MadeFor(log: seq<Observed>, id: RunId): nat {
    if log == [] then 0
    else MadeFor(log[..|log| - 1], id)
         + (if log[|log| - 1].parent == Some(id) && !log[|log| - 1].event.Folded? then 1 else 0)
  }

  /** How many folds it recorded that are told outside. */
  function FoldsBy(log: seq<Observed>, id: RunId): nat {
    if log == [] then 0
    else
      var o := log[|log| - 1];
      FoldsBy(log[..|log| - 1], id)
          + (if o.run == id && o.parent == None && o.delivered && o.event.Folded? then 1 else 0)
  }

  /** A run is told of the calls it made and the calls its workers made, each once, and of the folds it recorded if it
      is no worker and delivered somewhere. */
  lemma {:induction false} EachCountsOnce(log: seq<Observed>, id: RunId)
    requires forall i :: 0 <= i < |log| ==> log[i].parent != Some(log[i].run)
    ensures CallsIn(Told(log, id)) == MadeBy(log, id) + MadeFor(log, id)
    ensures |Told(log, id)| == MadeBy(log, id) + MadeFor(log, id) + FoldsBy(log, id)
  {
    if log != [] {
      var init, o := log[..|log| - 1], log[|log| - 1];
      EachCountsOnce(init, id);
      assert (Told(init, id) + [o.event])[..|Told(init, id)|] == Told(init, id);
    }
  }

  /** Where in the log a run's record begins: after it was last closed. */
  function From(since: map<RunId, nat>, id: RunId): nat {
    if id in since then since[id] else 0
  }

  /** A record has seen exactly the calls that count towards its run since it was last closed. */
  ghost predicate Tells(history: seq<Event>, log: seq<Observed>, since: map<RunId, nat>, id: RunId) {
    From(since, id) <= |log| && history == Told(log[From(since, id)..], id)
  }

  /** A run's record after one more call. */
  function Shared(history: seq<Event>, o: Observed, id: RunId): seq<Event> {
    if CountsFor(o, id) then history + [o.event] else history
  }

  lemma {:induction false} TellsMore(history: seq<Event>, log: seq<Observed>, since: map<RunId, nat>, o: Observed,
      id: RunId)
    requires Tells(history, log, since, id)
    ensures Tells(Shared(history, o, id), log + [o], since, id)
  {
    SinceStays(log, o, From(since, id), id);
  }

  lemma {:induction false} TellsAnew(log: seq<Observed>, since: map<RunId, nat>, id: RunId)
    ensures Tells([], log, since[id := |log|], id)
  {
    assert log[|log|..] == [];
  }

  lemma {:induction false} TellsStill(history: seq<Event>, log: seq<Observed>, since: map<RunId, nat>, id: RunId,
      other: RunId)
    requires other != id && Tells(history, log, since, other)
    ensures Tells(history, log, since[id := |log|], other)
  {
  }

  class Projector {
    var records: map<RunId, RunRecord>

    /** Everything observed, and how much of it was when a run's record was last closed. */
    ghost var log: seq<Observed>
    ghost var since: map<RunId, nat>

    /** Each run has a record of its own. */
    ghost predicate Apart()
      reads this, records.Values
    {
      && (forall a, b :: a in records && b in records && a != b ==> records[a] != records[b])
      && (forall id :: id in records ==> records[id].Valid())
    }

    ghost function History(id: RunId): seq<Event>
      reads this, records.Values
    {
      if id in records then records[id].history else []
    }

    ghost predicate Valid()
      reads this, records.Values
    {
      Apart() && forall id :: Tells(History(id), log, since, id)
    }

    constructor ()
      ensures Valid() && log == [] && records == map[]
    {
      records, log, since := map[], [], map[];
    }

    /** The record of a run, made if this is the first thing seen of it. */
    method Record(id: RunId) returns (record: RunRecord)
      requires Apart()
      modifies `records
      ensures Apart() && id in records && records[id] == record
      ensures if id in old(records) then records == old(records)
              else fresh(record) && record.history == [] && records == old(records)[id := record]
    {
      if id in records {
        return records[id];
      }
      record := new RunRecord();
      records := records[id := record];
    }

    /** Counts a call towards one run. */
    method Count(id: RunId, event: Event)
      requires Apart()
      modifies `records, records.Values
      ensures Apart()
      ensures forall x :: x in records ==> (x in old(records) && records[x] == old(records)[x]) || fresh(records[x])
      ensures forall x :: History(x) == if x == id then old(History(x)) + [event] else old(History(x))
    {
      hide RunRecord.Valid;
      var record := Record(id);
      assert forall x :: History(x) == old(History(x));
      assert forall x :: x in records && x != id ==> records[x] != record;
      label before:
      Take(record, event);
      assert forall x :: x in records && x != id ==> records[x].history == old@before(records[x].history);
      assert forall x :: x in records && x != id ==> records[x].Valid();
    }

    /** Counts a call towards the run, and towards its parent as well; notes a fold where it matters. */
    method CountAll(o: Observed)
      requires Apart() && o.parent != Some(o.run)
      modifies `records, records.Values
      ensures Apart() && forall id :: History(id) == Shared(old(History(id)), o, id)
    {
      hide RunRecord.Valid;
      if o.event.Folded? {
        if o.delivered && o.parent.None? {
          Count(o.run, o.event);
        }
        return;
      }
      Count(o.run, o.event);
      if o.parent.Some? {
        Count(o.parent.value, o.event);
      }
    }

    method Observe(o: Observed)
      requires Valid() && o.parent != Some(o.run)
      modifies this, records.Values
      ensures Valid() && log == old(log) + [o] && since == old(since)
      ensures forall id :: History(id) == Shared(old(History(id)), o, id)
    {
      hide RunRecord.Valid, Tells;
      CountAll(o);
      log := log + [o];
      forall id ensures Tells(History(id), log, since, id) {
        TellsMore(old(History(id)), old(log), since, o, id);
      }
    }

    static method Take(record: RunRecord, event: Event)
      requires record.Valid()
      modifies record
      ensures record.Valid() && record.history == old(record.history) + [event]
    {
      match event
      case Requested(call, source) => record.Requests(call, source);
      case Finished(name, call, isError, ms, seqNo) => record.Completes(name, call, isError, ms, seqNo);
      case Folded(through) => record.Compacts(through);
    }

    /** Renders a run's account and releases what was held for it. */
    method Close(id: RunId) returns (summary: Option<Summary>)
      requires Valid()
      modifies `records, `since
      ensures Valid() && log == old(log) && records == old(records) - {id} && since == old(since)[id := |log|]
      ensures From(old(since), id) <= |log|
      ensures summary.None? ==> Told(log[From(old(since), id)..], id) == []
      ensures summary.Some? ==> AccountsFor(summary.value, Told(log[From(old(since), id)..], id))
    {
      hide RunRecord.Valid, AccountsFor;
      assert Tells(History(id), log, since, id);
      if id !in records {
        summary := None;
      } else {
        var s := records[id].Summarise();
        SummaryAccounts(records[id], s);
        summary := Some(s);
      }
      TellsAnew(log, since, id);
      records := records - {id};
      since := since[id := |log|];
      forall other ensures Tells(History(other), log, since, other) {
        assert old(Tells(History(other), log, since, other));
        if other != id {
          TellsStill(History(other), log, old(since), id, other);
        }
      }
    }
  }

  lemma {:induction false} SinceStays(log: seq<Observed>, o: Observed, from: nat, id: RunId)
    requires from <= |log|
    ensures (log + [o])[from..] == log[from..] + [o]
    ensures Told((log + [o])[from..], id) == Told(log[from..], id) + (if CountsFor(o, id) then [o.event] else [])
  {
    assert (log + [o])[from..] == log[from..] + [o];
    ToldMore(log[from..], o, id);
  }

  /** Every tool called is listed with its own figures, in order, and every source drawn on is listed or counted. */
  ghost predicate AccountsFor(summary: Summary, log: seq<Event>) {
    && InOrder(summary.tools)
    && (forall use :: use in summary.tools ==> UseIs(use, log, use.name))
    && (forall name :: CallsOf(log, name) != [] ==> exists use :: use in summary.tools && use.name == name)
    && (exists distinct: set<Source> ::
          && |distinct| == |summary.sources| + summary.omitted
          && forall source :: source in distinct <==> DrawnOn(log, source))
    && (forall l :: l in summary.sources ==> RetainedIs(l, log))
  }

  /** A source that is listed is marked as still in front of the model exactly when it was first drawn on after
      the point the last fold reached. */
  ghost predicate RetainedIs(l: Listed, log: seq<Event>) {
    exists d :: FirstDrawn(log, d) && d.source == l.source && (l.retained <==> d.seqNo > FoldedThrough(log))
  }

  lemma {:induction false} SummaryAccounts(record: RunRecord, summary: Summary)
    requires record.Valid() && InOrder(summary.tools) && AllOf(summary.tools, record.tools)
    requires ListedIs(summary.sources, record.sources, record.compactedThrough)
    requires |summary.sources| + summary.omitted == |record.sources|
    ensures AccountsFor(summary, record.history)
  {
    hide UseIs, CallsOf, DrawnOn, InOrder, FirstDrawn, FoldedThrough;
    var distinct := CountsDistinctSources(record.sources, record.history);
    forall name | CallsOf(record.history, name) != [] ensures exists use :: use in summary.tools && use.name == name {
      assert name in record.tools;
      NamesAre(record.tools, record.pending, record.sources, record.history);
      assert record.tools[name] in summary.tools && record.tools[name].name == name;
    }
    forall l | l in summary.sources ensures RetainedIs(l, record.history) {
      var i :| 0 <= i < |summary.sources| && summary.sources[i] == l;
      assert FirstDrawn(record.history, record.sources[i]);
    }
  }
}
