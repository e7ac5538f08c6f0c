/** Answers sent to a channel as they grow. */
module Streaming {
  import opened Wrappers

  type MessageId = string
  type Time = int

  const DEFAULT_INTERVAL := 1500

  /** A version of an answer and when it was sent. */
  datatype Version = Version(text: string, at: Time)

  predicate IsSpace(c: char) {
    c == ' ' || c == '\t' || c == '\n' || c == '\r' || c as int == 11 || c as int == 12
  }

  predicate Blank(text: string) {
    forall i :: 0 <= i < |text| ==> IsSpace(text[i])
  }

  /** Each version goes on from the one before, at least an interval later, and the answer from them all. */
  ghost predicate Grows(versions: seq<Version>, text: string, interval: Time) {
    && (forall i, j :: 0 <= i < j < |versions| ==>
          versions[i].text <= versions[j].text && versions[j].at - versions[i].at >= interval)
    && (forall i :: 0 <= i < |versions| ==> versions[i].text <= text)
  }

  lemma {:induction false} GrowsMore(versions: seq<Version>, text: string, more: string, interval: Time)
    requires Grows(versions, text, interval)
    ensures Grows(versions, text + more, interval)
  {
    assert text <= text + more;
  }

  lemma {:induction false} GrowsBy(versions: seq<Version>, text: string, at: Time, interval: Time)
    requires Grows(versions, text, interval) && interval > 0
    requires versions != [] ==> at - versions[|versions| - 1].at >= interval
    ensures Grows(versions + [Version(text, at)], text, interval)
  {
    var now := versions + [Version(text, at)];
    forall i, j | 0 <= i < j < |now| ensures now[i].text <= now[j].text && now[j].at - now[i].at >= interval {
      if j == |versions| && i < j - 1 {
        assert versions[j - 1].at - versions[i].at >= interval;
      }
    }
  }

  /** What is known of one message: its words so far, if any, when a version last went out or its first words came,
      the versions that went out, and when the first words came. */
  datatype Message = Message(text: Option<string>, last: Option<Time>, versions: seq<Version>, begun: Option<Time>)

  function TextOf(m: Message): string {
    if m.text.Some? then m.text.value else ""
  }

  /** Each version is followed by longer ones, an interval apart, the first an interval after the first words. */
  ghost predicate Ok(m: Message, interval: Time) {
    && Grows(m.versions, TextOf(m), interval)
    && (m.versions != [] ==> m.last.Some? && m.versions[|m.versions| - 1].at == m.last.value
                             && m.begun.Some? && m.versions[0].at - m.begun.value >= interval)
    && (m.last.Some? ==> m.text.Some? && m.begun.Some? && (m.versions == [] ==> m.last == m.begun))
  }

  lemma {:induction false} WordsOk(m: Message, more: string, interval: Time)
    requires Ok(m, interval)
    ensures Ok(m.(text := Some(TextOf(m) + more)), interval)
  {
    GrowsMore(m.versions, TextOf(m), more, interval);
  }

  lemma {:induction false} OkGrows(m: Message, interval: Time)
    requires Ok(m, interval)
    ensures Grows(m.versions, TextOf(m), interval) && Ok(Message(None, None, [], None), interval)
  {
  }

  lemma {:induction false} FirstWordsOk(m: Message, now: Time, interval: Time)
    requires Ok(m, interval) && m.last.None? && m.text.Some?
    ensures Ok(m.(last := Some(now), begun := Some(now)), interval)
  {
  }

  lemma {:induction false} VersionOk(m: Message, now: Time, interval: Time)
    requires Ok(m, interval) && interval > 0 && m.last.Some? && now - m.last.value >= interval
    ensures Ok(m.(versions := m.versions + [Version(TextOf(m), now)], last := Some(now)), interval)
  {
    GrowsBy(m.versions, TextOf(m), now, interval);
  }

  function At<T>(held: map<MessageId, T>, id: MessageId): Option<T> {
    if id in held then Some(held[id]) else None
  }

  class Stream {
    const interval: Time
    var pending: map<MessageId, string>
    var lastStreamed: map<MessageId, Time>

    /** The versions sent of each message still being written, and when its first words came. */
    ghost var sent: map<MessageId, seq<Version>>
    ghost var begun: map<MessageId, Time>

    ghost function Sent(id: MessageId): seq<Version>
      reads this
    {
      if id in sent then sent[id] else []
    }

    ghost function Text(id: MessageId): string
      reads this
    {
      if id in pending then pending[id] else ""
    }

    ghost function Known(id: MessageId): Message
      reads this
    {
      Message(At(pending, id), At(lastStreamed, id), Sent(id), At(begun, id))
    }

    ghost predicate Valid()
      reads this
    {
      interval > 0 && forall id :: Ok(Known(id), interval)
    }

    constructor (interval: Time)
      ensures Valid() && this.interval == (if interval <= 0 then 1500 else interval)
      ensures forall id :: Known(id) == Message(None, None, [], None)
    {
      this.interval := if interval <= 0 then DEFAULT_INTERVAL else interval;
      pending, lastStreamed, sent, begun := map[], map[], map[], map[];
    }

    method Accumulate(id: MessageId, text: string)
      requires Valid()
      modifies `pending
      ensures Valid() && Known(id) == old(Known(id)).(text := Some(old(Text(id)) + text))
      ensures forall other :: other != id ==> Known(other) == old(Known(other))
    {
      hide Ok;
      WordsOk(Known(id), text, interval);
      pending := pending[id := (if id in pending then pending[id] else "") + text];
      assert forall other :: other != id ==> Known(other) == old(Known(other));
    }

    /** Whether a version may go out now. The first words only start the clock. */
    method ShouldStream(id: MessageId, now: Time) returns (yes: bool)
      requires Valid() && id in pending
      modifies `lastStreamed, `begun, `sent
      ensures Valid() && forall other :: other != id ==> Known(other) == old(Known(other))
      ensures yes <==> id in old(lastStreamed) && now - old(lastStreamed)[id] >= interval
      ensures Text(id) == old(Text(id)) && Sent(id) == old(Sent(id)) + (if yes then [Version(Text(id), now)] else [])
    {
      hide Ok;
      ghost var was := Known(id);
      if id !in lastStreamed {
        FirstWordsOk(was, now, interval);
        lastStreamed := lastStreamed[id := now];
        begun := begun[id := now];
        assert Known(id) == was.(last := Some(now), begun := Some(now));
        yes := false;
      } else if now - lastStreamed[id] < interval {
        yes := false;
      } else {
        VersionOk(was, now, interval);
        sent := sent[id := Sent(id) + [Version(Text(id), now)]];
        lastStreamed := lastStreamed[id := now];
        assert Known(id) == was.(versions := was.versions + [Version(TextOf(was), now)], last := Some(now));
        yes := true;
      }
      assert forall other :: other != id ==> Known(other) == old(Known(other));
    }

    /** More words of an answer: the version to send, if it is time for one. */
    method Delta(id: MessageId, text: string, now: Time) returns (version: Option<string>)
      requires Valid()
      modifies this
      ensures Valid() && Text(id) == old(Text(id)) + text
      ensures version.Some? <==> id in old(lastStreamed) && now - old(lastStreamed)[id] >= interval
      ensures version.Some? ==> version.value == Text(id)
      ensures Sent(id) == old(Sent(id)) + (if version.Some? then [Version(Text(id), now)] else [])
      ensures forall other :: other != id ==> Known(other) == old(Known(other))
    {
      hide Ok;
      Accumulate(id, text);
      assert At(pending, id) == Some(Text(id));
      var yes := ShouldStream(id, now);
      if !yes {
        return None;
      }
      return Some(pending[id]);
    }

    /** The answer is done: what is sent last, if it says anything. Every version sent before is a beginning of it,
        and of the versions after it. */
    method Completed(id: MessageId) returns (final: Option<string>)
      requires Valid()
      modifies `pending, `lastStreamed, `sent, `begun
      ensures Valid() && Known(id) == Message(None, None, [], None)
      ensures final.None? <==>
              forall c :: c in old(Text(id)) ==> c in {' ', '\t', '\n', '\r', 11 as char, 12 as char}
      ensures final.Some? ==> final.value == old(Text(id))
      ensures Grows(old(Sent(id)), old(Text(id)), interval)
      ensures forall other :: other != id ==> Known(other) == old(Known(other))
    {
      hide Ok;
      OkGrows(Known(id), interval);
      var text := if id in pending then pending[id] else "";
      pending, lastStreamed := pending - {id}, lastStreamed - {id};
      sent, begun := sent - {id}, begun - {id};
      assert Known(id) == Message(None, None, [], None);
      assert forall other :: other != id ==> Known(other) == old(Known(other));
      assert forall i :: 0 <= i < |text| ==> text[i] in text;
      return if Blank(text) then None else Some(text);
    }
  }
}
