/** The most recent output of one program, and readers that follow it. */
module RingBuffer {

  type Byte = bv8

  const DEFAULT_BYTES := 262144

  function Last<T>(s: seq<T>, n: nat): (r: seq<T>)
    ensures |r| == if |s| < n then |s| else n
  {
    if |s| <= n then s else s[|s| - n..]
  }

  class Buffer {
    var data: seq<Byte>
    var start: nat
    const limit: nat

    /** Everything ever written. */
    ghost var stream: seq<Byte>

    ghost predicate Valid()
      reads this
    {
      limit > 0 && start + |data| == |stream| && data == Last(stream, limit)
    }

    constructor (limit: int)
      ensures Valid() && stream == [] && this.limit == if limit <= 0 then 262144 else limit
    {
      this.limit := if limit <= 0 then DEFAULT_BYTES else limit;
      data, start, stream := [], 0, [];
    }

    method Write(chunk: seq<Byte>) returns (n: nat)
      requires Valid()
      modifies this
      ensures Valid() && stream == old(stream) + chunk && n == |chunk|
    {
      stream := stream + chunk;
      data := data + chunk;
      assert data == stream[start..];
      var over := |data| - limit;
      if over > 0 {
        data := data[over..];
        start := start + over;
      }
      n := |chunk|;
    }

    /** Everything from an offset on that is still held, the offset to ask from next, and how much between
        the two was overwritten. */
    method Read(offset: int) returns (output: seq<Byte>, next: nat, skipped: nat)
      requires Valid()
      ensures next == |stream|
      ensures offset < 0 ==> skipped == 0 && output == Last(stream, limit)
      ensures 0 <= offset <= |stream| ==>
                offset + skipped <= |stream| && output == stream[offset + skipped..]
                    && (skipped > 0 ==> output == Last(stream, limit))
      ensures offset > |stream| ==> skipped == 0 && output == []
    {
      var at := offset;
      var end := start + |data|;
      skipped := 0;
      if at < 0 || at < start {
        if at >= 0 {
          skipped := start - at;
        }
        at := start;
      }
      if at > end {
        return [], end, skipped;
      }
      return data[at - start..], end, skipped;
    }

    method Dropped() returns (n: nat)
      requires Valid()
      ensures n == |stream| - |Last(stream, limit)|
    {
      return start;
    }
  }

  /** Somebody polling one buffer. */
  class Reader {
    const buffer: Buffer
    var cursor: nat
    ghost var received: seq<Byte>
    ghost var missed: nat

    /** What was received and what was missed add up to the cursor, and everything received is what the program
        wrote, in order. */
    ghost predicate Valid()
      reads this, buffer
    {
      && buffer.Valid() && cursor <= |buffer.stream|
      && |received| + missed == cursor && Within(received, buffer.stream[..cursor])
    }

    constructor (buffer: Buffer)
      requires buffer.Valid()
      ensures Valid() && this.buffer == buffer && cursor == 0 && received == [] && missed == 0
    {
      this.buffer, cursor := buffer, 0;
      received, missed := [], 0;
    }

    method Poll() returns (output: seq<Byte>, skipped: nat)
      requires Valid()
      modifies this
      ensures Valid() && cursor == |buffer.stream|
      ensures |output| + skipped == cursor - old(cursor) && output == buffer.stream[old(cursor) + skipped..cursor]
      ensures received == old(received) + output && missed == old(missed) + skipped
      ensures |buffer.stream| - old(cursor) <= buffer.limit ==> skipped == 0
    {
      hide Within;
      var next;
      output, next, skipped := buffer.Read(cursor);
      WithinMore(received, buffer.stream, cursor, cursor + skipped);
      received := received + output;
      missed := missed + skipped;
      cursor := next;
      assert buffer.stream[..cursor] == buffer.stream;
    }

    /** The program goes on writing between two polls. */
    method Wrote(chunk: seq<Byte>)
      requires Valid()
      modifies buffer
      ensures Valid() && buffer.stream == old(buffer.stream) + chunk && cursor == old(cursor)
                && received == old(received)
    {
      var n := buffer.Write(chunk);
      assert buffer.stream[..cursor] == old(buffer.stream)[..cursor];
    }
  }

  /** `part` is what is left of `whole` when some of it is taken out. */
  ghost predicate Within<T>(part: seq<T>, whole: seq<T>)
    decreases |whole|
  {
    if part == [] then true
    else if whole == [] then false
    else
      Within(part, whole[..|whole| - 1]) ||
      (part[|part| - 1] == whole[|whole| - 1] && Within(part[..|part| - 1], whole[..|whole| - 1]))
  }

  lemma {:induction false} WithinLonger<T>(part: seq<T>, whole: seq<T>, more: seq<T>)
    requires Within(part, whole)
    ensures Within(part, whole + more)
  {
    if more == [] {
      assert whole + more == whole;
    } else {
      WithinLonger(part, whole, more[..|more| - 1]);
      assert (whole + more)[..|whole + more| - 1] == whole + more[..|more| - 1];
    }
  }

  lemma {:induction false} WithinBoth<T>(part: seq<T>, whole: seq<T>, more: seq<T>)
    requires Within(part, whole)
    ensures Within(part + more, whole + more)
  {
    if more == [] {
      assert whole + more == whole && part + more == part;
    } else {
      WithinBoth(part, whole, more[..|more| - 1]);
      assert (whole + more)[..|whole + more| - 1] == whole + more[..|more| - 1];
      assert (part + more)[..|part + more| - 1] == part + more[..|more| - 1];
    }
  }

  /** Skipping ahead and then taking the rest keeps the order. */
  lemma {:induction false} WithinMore(received: seq<Byte>, stream: seq<Byte>, cursor: nat, at: nat)
    requires cursor <= at <= |stream| && Within(received, stream[..cursor])
    ensures Within(received + stream[at..], stream)
  {
    WithinLonger(received, stream[..cursor], stream[cursor..at]);
    assert stream[..cursor] + stream[cursor..at] == stream[..at];
    WithinBoth(received, stream[..at], stream[at..]);
    assert stream[..at] + stream[at..] == stream;
  }
}
