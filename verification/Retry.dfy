/** Resending a request that failed before it said anything.

    What the provider, the clock and the dice will do is a script read from the front, so every
    behaviour of theirs is some script. Durations are whole nanoseconds.
  */
module Retry {
  import opened Wrappers

  /** What the code asks of an error. */
  datatype Error = Error(eof: bool, canceled: bool, retryable: bool, retryAfter: Option<int>)

  datatype Failure =
    | Given(error: Error)
    | BudgetExhausted(waited: int, needed: int, cause: Error)
    | Interrupted(error: Error)

  datatype Policy = Policy(maxAttempts: int, baseDelay: int, maxDelay: int, jitter: real, budget: int)

  function Attempts(p: Policy): (n: int)
    ensures n >= 1 && (p.maxAttempts >= 1 ==> n == p.maxAttempts) && (p.maxAttempts < 1 ==> n == 1)
  {
    if p.maxAttempts < 1 then 1 else p.maxAttempts
  }

  // ---- how long to wait -----------------------------------------------------------------

  /** Conversion to a whole number drops the fraction. */
  function Truncated(x: real): int {
    if x >= 0.0 then x.Floor else -((-x).Floor)
  }

  function Power(n: nat): (r: nat)
    ensures r >= 1
  {
    if n == 0 then 1 else 2 * Power(n - 1)
  }

  function Times(a: real, b: real): real {
    a * b
  }

  /** Full-width jitter around a backoff. */
  function Jitter(backoff: real, jitter: real, roll: real): real {
    Times(roll * 2.0 - 1.0, Times(backoff, jitter))
  }

  /** The delay before the attempt after `attempt`; `roll` is the dice. */
  function Delay(p: Policy, attempt: nat, error: Error, roll: real): int
    requires attempt >= 1
  {
    if error.retryAfter.Some? then
      var after := error.retryAfter.value;
      if p.jitter > 0.0 then after + Truncated(roll * p.jitter * after as real) else after
    else
      var doubled := (p.baseDelay * Power(attempt - 1)) as real;
      var capped := if doubled > p.maxDelay as real then p.maxDelay as real else doubled;
      var spread := if p.jitter > 0.0 then capped + Jitter(capped, p.jitter, roll) else capped;
      Truncated(if spread < 0.0 then 0.0 else spread)
  }

  predicate IsRoll(roll: real) {
    0.0 <= roll < 1.0
  }

  lemma {:induction false} ProductSign(a: real, b: real)
    ensures a >= 0.0 && b >= 0.0 ==> a * b >= 0.0
    ensures a >= 0.0 && b <= 0.0 ==> a * b <= 0.0
  {
  }

  /** A wait the server named is never cut short, as long as what it named is not negative. */
  lemma {:induction false} NeverBeforeTheServerSays(p: Policy, attempt: nat, error: Error, roll: real)
    requires attempt >= 1 && IsRoll(roll) && error.retryAfter.Some? && error.retryAfter.value >= 0
    ensures Delay(p, attempt, error, roll) >= error.retryAfter.value
  {
    var after := error.retryAfter.value as real;
    if p.jitter > 0.0 {
      ProductSign(roll, p.jitter);
      ProductSign(roll * p.jitter, after);
    }
  }

  /** A wait the server did not name stays between nothing and what the policy allows. */
  lemma {:induction false} OwnWaitIsBounded(p: Policy, attempt: nat, error: Error, roll: real)
    requires attempt >= 1 && IsRoll(roll) && error.retryAfter.None?
    requires p.baseDelay >= 0 && p.maxDelay >= 0 && p.jitter >= 0.0
    ensures 0 <= Delay(p, attempt, error, roll)
    ensures Delay(p, attempt, error, roll) as real <= p.maxDelay as real * (1.0 + p.jitter)
  {
    var doubled, most := (p.baseDelay * Power(attempt - 1)) as real, p.maxDelay as real;
    Spread(if doubled > most then most else doubled, most, p.jitter, roll);
  }

  lemma {:induction false} Spread(capped: real, most: real, jitter: real, roll: real)
    requires 0.0 <= capped <= most && jitter >= 0.0 && IsRoll(roll)
    ensures capped + Jitter(capped, jitter, roll) <= most * (1.0 + jitter)
    ensures capped <= most * (1.0 + jitter)
  {
    hide Times;
    Grows(capped, most, jitter);
    Shrinks(roll * 2.0 - 1.0, Times(capped, jitter));
    Distributes(most, jitter);
  }

  lemma {:induction false} Grows(a: real, b: real, c: real)
    requires 0.0 <= a <= b && c >= 0.0
    ensures 0.0 <= Times(a, c) <= Times(b, c)
  {
    ProductSign(b - a, c);
    assert (b - a) * c == b * c - a * c;
  }

  lemma {:induction false} Distributes(a: real, b: real)
    ensures a * (1.0 + b) == a + Times(a, b)
  {
  }

  lemma {:induction false} Shrinks(t: real, x: real)
    requires t < 1.0 && x >= 0.0
    ensures Times(t, x) <= x
  {
    ProductSign(x, 1.0 - t);
    assert (1.0 - t) * x == x - t * x;
  }

  /** Without jitter each own wait is twice the one before, until the most the policy allows. */
  lemma {:induction false} OwnWaitDoubles(p: Policy, attempt: nat, error: Error, roll: real)
    requires attempt >= 1 && error.retryAfter.None? && p.jitter == 0.0 && p.baseDelay >= 0 && p.maxDelay >= 0
    ensures Delay(p, attempt + 1, error, roll)
         == (if 2 * Delay(p, attempt, error, roll) > p.maxDelay then p.maxDelay else 2 * Delay(p, attempt, error, roll))
  {
    var now := p.baseDelay * Power(attempt - 1);
    assert Power(attempt) == 2 * Power(attempt - 1);
    assert p.baseDelay * Power(attempt) == 2 * now;
  }

  /** The first own wait without jitter, which those after it double. */
  lemma {:induction false} FirstOwnWait(p: Policy, error: Error, roll: real)
    requires error.retryAfter.None? && p.jitter == 0.0 && p.baseDelay >= 0 && p.maxDelay >= 0
    ensures Delay(p, 1, error, roll) == if p.baseDelay > p.maxDelay then p.maxDelay else p.baseDelay
  {
    assert Power(0) == 1;
  }

  /** Jitter moves an own wait by at most its share either way, all the way down at one end of the dice and not at
      all in the middle. */
  lemma {:induction false} OwnWaitIsNear(p: Policy, attempt: nat, error: Error, roll: real)
    requires attempt >= 1 && IsRoll(roll) && error.retryAfter.None?
    requires p.baseDelay >= 0 && p.maxDelay >= 0 && p.jitter >= 0.0
    ensures var plain, wait := Delay(p.(jitter := 0.0), attempt, error, roll), Delay(p, attempt, error, roll);
            && plain as real * (1.0 - p.jitter) - 1.0 < wait as real <= plain as real * (1.0 + p.jitter)
            && (roll == 0.0 ==> wait as real <= plain as real * (1.0 - p.jitter) || wait == 0)
            && (roll == 0.5 ==> wait == plain)
  {
    hide Times;
    var plain := Delay(p.(jitter := 0.0), attempt, error, roll) as real;
    var doubled, most := (p.baseDelay * Power(attempt - 1)) as real, p.maxDelay as real;
    assert plain == if doubled > most then most else doubled;
    Spread(plain, plain, p.jitter, roll);
    SpreadBelow(plain, p.jitter, roll);
  }

  lemma {:induction false} SpreadBelow(capped: real, jitter: real, roll: real)
    requires 0.0 <= capped && jitter >= 0.0 && IsRoll(roll)
    ensures capped + Jitter(capped, jitter, roll) >= capped * (1.0 - jitter)
    ensures roll == 0.0 ==> capped + Jitter(capped, jitter, roll) == capped * (1.0 - jitter)
    ensures roll == 0.5 ==> Jitter(capped, jitter, roll) == 0.0
  {
    var x := capped * jitter;
    ProductSign(capped, jitter);
    ProductSign(roll, x);
    assert (roll * 2.0 - 1.0) * x == roll * x + roll * x - x;
    assert capped * (1.0 - jitter) == capped - x;
  }

  /** Jitter lengthens a wait that the server named by at most its share. */
  lemma {:induction false} NamedWaitIsNear(p: Policy, attempt: nat, error: Error, roll: real)
    requires attempt >= 1 && IsRoll(roll) && error.retryAfter.Some? && error.retryAfter.value >= 0 && p.jitter >= 0.0
    ensures var after, wait := error.retryAfter.value, Delay(p, attempt, error, roll);
            && after as real + roll * p.jitter * after as real - 1.0 < wait as real
            && wait as real <= after as real + roll * p.jitter * after as real
  {
    var after := error.retryAfter.value as real;
    ProductSign(roll, p.jitter);
    ProductSign(roll * p.jitter, after);
    assert p.jitter == 0.0 ==> roll * p.jitter * after == 0.0;
  }

  predicate WithinBudget(p: Policy, spent: int, next: int) {
    p.budget <= 0 || spent + next <= p.budget
  }

  // ---- what the outside world does ----------------------------------------------------------

  datatype Reply = Produces(event: string) | Fails(error: Error)

  datatype Opening = Refuses(error: Error) | Opens(replies: seq<Reply>)

  const EOF := Error(true, false, false, None)
  const GIVEN_UP := Error(false, false, false, None)

  class Stream {
    var replies: seq<Reply>
    var closed: bool
    ghost var produced: seq<string>

    constructor (replies: seq<Reply>)
      ensures this.replies == replies && !closed && produced == []
    {
      this.replies, closed := replies, false;
      produced := [];
    }

    /** The next event or error, and the end of the stream once there is nothing more. */
    method Recv() returns (r: Reply)
      modifies `replies, `produced
      ensures produced == if r.Produces? then old(produced) + [r.event] else old(produced)
      ensures r == if old(replies) == [] then Fails(Error(true, false, false, None)) else old(replies)[0]
    {
      if replies == [] {
        return Fails(EOF);
      }
      r := replies[0];
      replies := replies[1..];
      if r.Produces? {
        produced := produced + [r.event];
      }
    }

    method Close()
      modifies `closed
      ensures closed
    {
      closed := true;
    }
  }

  /** A wait that was sat through, and the error it was for. */
  datatype Waited = Waited(wait: int, error: Error)

  function Total(waits: seq<Waited>): int {
    if waits == [] then 0 else Total(waits[..|waits| - 1]) + waits[|waits| - 1].wait
  }

  class World {
    var script: seq<Opening>
    var naps: seq<Option<Error>>
    var rolls: seq<real>
    ghost var calls: nat
    ghost var streams: seq<Stream>
    ghost var waits: seq<Waited>

    /** How the last request for a stream was refused, if it was. */
    ghost var refusal: Option<Error>

    constructor (script: seq<Opening>, naps: seq<Option<Error>>, rolls: seq<real>)
      ensures calls == 0 && streams == [] && waits == [] && refusal == None
      ensures this.script == script && this.naps == naps
    {
      this.script, this.naps, this.rolls := script, naps, rolls;
      calls, streams, waits, refusal := 0, [], [], None;
    }

    method Generate() returns (stream: Stream?, error: Error)
      modifies `script, `calls, `streams, `refusal
      ensures calls == old(calls) + 1
      ensures stream == null ==> streams == old(streams) && refusal == Some(error)
      ensures stream != null ==> refusal == None
      ensures old(script) != [] ==> script == old(script)[1..]
      ensures old(script) != [] && old(script)[0].Opens? ==> stream != null && stream.replies == old(script)[0].replies
      ensures old(script) != [] && old(script)[0].Refuses? ==> stream == null && error == old(script)[0].error
      ensures stream != null ==> fresh(stream) && streams == old(streams) + [stream]
      ensures stream != null ==> !stream.closed && stream.produced == []
    {
      calls := calls + 1;
      stream, error := null, GIVEN_UP;
      if script != [] {
        match script[0] {
          case Refuses(why) =>
            error := why;
          case Opens(replies) =>
            stream := new Stream(replies);
            streams := streams + [stream];
        }
        script := script[1..];
      }
      refusal := if stream == null then Some(error) else None;
    }

    method Sleep(wait: int, ghost error: Error) returns (failed: Option<Error>)
      modifies `naps, `waits
      ensures waits == if failed.None? then old(waits) + [Waited(wait, error)] else old(waits)
      ensures old(naps) == [] ==> failed == None
    {
      failed := None;
      if naps != [] {
        failed := naps[0];
        naps := naps[1..];
      }
      if failed.None? {
        waits := waits + [Waited(wait, error)];
      }
    }

    method Roll() returns (roll: real)
      modifies `rolls
      ensures IsRoll(roll)
    {
      roll := 0.0;
      if rolls != [] {
        if 0.0 <= rolls[0] < 1.0 {
          roll := rolls[0];
        }
        rolls := rolls[1..];
      }
    }
  }

  // ---- what is kept ----------------------------------------------------------------------------

  /** No more calls than attempts, no more waiting than the budget, and no wait shorter than asked for. */
  ghost predicate Bounded(w: World, p: Policy)
    reads w
  {
    && w.calls <= Attempts(p)
    && (p.budget > 0 && w.waits != [] ==> Total(w.waits) <= p.budget)
    && forall i :: 0 <= i < |w.waits| ==> LongEnough(w.waits[i])
  }

  ghost predicate LongEnough(w: Waited) {
    w.error.retryAfter.Some? && w.error.retryAfter.value >= 0 ==> w.wait >= w.error.retryAfter.value
  }

  /** The reason a failure is given rather than the request resent after `calls` tries and `spent` waiting. */
  ghost predicate MayGiveUp(p: Policy, calls: nat, spent: int, f: Failure) {
    match f
    case Given(error) => error.eof || error.canceled || !error.retryable || calls >= Attempts(p)
    case BudgetExhausted(waited, needed, cause) =>
      cause.retryable && !cause.canceled && calls < Attempts(p) && waited == spent && p.budget > 0
          && waited + needed > p.budget
    case Interrupted(_) => calls < Attempts(p)
  }

  /** An error that would be tried again, given to the caller while there are attempts left. */
  ghost predicate EndsEarly(p: Policy, calls: nat, f: Failure) {
    f.Given? && !MayGiveUp(p, calls, 0, f)
  }

  /** The last of the calls made since there were `before` of them was refused. */
  ghost predicate RefusedSince(w: World, before: nat)
    reads w
  {
    w.calls > before && w.refusal.Some?
  }

  lemma {:induction false} TotalMore(waits: seq<Waited>, w: Waited)
    ensures Total(waits + [w]) == Total(waits) + w.wait
  {
    assert (waits + [w])[..|waits|] == waits;
  }

  /** Whether to wait once more, and how long. A failure is final. */
  method WaitAgain(w: World, p: Policy, attempt: nat, spent: int, error: Error)
      returns (failure: Option<Failure>, wait: int)
    requires 1 <= attempt == w.calls < Attempts(p) && error.retryable && !error.canceled
    requires Bounded(w, p) && spent == Total(w.waits)
    modifies w`rolls, w`naps, w`waits
    ensures Bounded(w, p)
    ensures failure.None? ==> Total(w.waits) == spent + wait
    ensures failure.Some? ==> w.waits == old(w.waits) && MayGiveUp(p, w.calls, spent, failure.value)
    ensures failure.Some? ==> !failure.value.Given?
    ensures p.budget <= 0 && old(w.naps) == [] ==> failure == None
  {
    hide Delay, Total, Power, Truncated, Times, Jitter;
    var roll := w.Roll();
    wait := Delay(p, attempt, error, roll);
    if error.retryAfter.Some? && error.retryAfter.value >= 0 {
      NeverBeforeTheServerSays(p, attempt, error, roll);
    }
    if !WithinBudget(p, spent, wait) {
      return Some(BudgetExhausted(spent, wait, error)), wait;
    }
    var interrupted := w.Sleep(wait, error);
    if interrupted.Some? {
      return Some(Interrupted(interrupted.value)), wait;
    }
    TotalMore(old(w.waits), Waited(wait, error));
    failure := None;
  }

  // ---- the stream a caller holds -----------------------------------------------------------------

  class RetryingStream {
    const world: World
    const policy: Policy
    var stream: Stream
    var attempt: nat
    var spent: int
    var emitted: bool
    ghost var delivered: seq<string>

    /** Calls are attempts; every stream but the one in hand is closed and produced nothing; what was
        delivered is what the one in hand has produced. */
    ghost predicate Valid()
      reads this, world, set s | s in world.streams
    {
      && Bounded(world, policy)
      && attempt == world.calls >= 1 && spent == Total(world.waits)
      && world.streams != [] && world.streams[|world.streams| - 1] == stream
      && (forall i :: 0 <= i < |world.streams| - 1 ==>
            world.streams[i] != stream && world.streams[i].closed && world.streams[i].produced == [])
      && delivered == stream.produced && (emitted <==> delivered != [])
    }

    constructor (world: World, policy: Policy, stream: Stream, attempt: nat, spent: int)
      requires Bounded(world, policy) && attempt == world.calls >= 1 && spent == Total(world.waits)
      requires world.streams == [stream] && stream.produced == []
      ensures Valid() && this.world == world && this.policy == policy && this.stream == stream && delivered == []
    {
      this.world, this.policy, this.stream := world, policy, stream;
      this.attempt, this.spent, emitted := attempt, spent, false;
      delivered := [];
    }

    /** The stream in hand fails in a way that is tried again, waiting is free, and the next stream is refused. */
    ghost predicate WillBeRefused()
      reads this, world, stream
    {
      && !emitted && stream.replies != [] && stream.replies[0].Fails?
      && (var error := stream.replies[0].error; error.retryable && !error.eof && !error.canceled)
      && attempt < Attempts(policy) && policy.budget <= 0 && world.naps == []
      && world.script != [] && world.script[0].Refuses?
    }

    /** The next event, or why there is none. Once anything was delivered the request is never resent. */
    method Recv() returns (event: Option<string>, failure: Option<Failure>)
      requires Valid()
      modifies this, world, set s | s in world.streams
      ensures Valid()
      ensures event.Some? ==> failure.None? && delivered == old(delivered) + [event.value]
      ensures event.None? ==> failure.Some? && delivered == old(delivered)
      ensures failure.Some? && (!failure.value.Given? || world.calls == old(world.calls)) ==>
                old(emitted) || MayGiveUp(policy, world.calls, spent, failure.value)
      // a read ends early exactly when the stream that should have replaced a failed one was refused
      ensures RefusedSince(world, old(world.calls)) ==> failure == Some(Given(world.refusal.value))
      ensures event.None? && !old(emitted) ==>
                (EndsEarly(policy, world.calls, failure.value) <==>
                 RefusedSince(world, old(world.calls)) && EndsEarly(policy, world.calls, Given(world.refusal.value)))
      ensures old(WillBeRefused()) ==>
                failure == Some(Given(old(world.script)[0].error)) && world.calls == old(world.calls) + 1
      ensures old(emitted) ==>
                stream == old(stream) && world.calls == old(world.calls) && world.streams == old(world.streams)
      ensures forall s :: s in world.streams ==> s in old(world.streams) || fresh(s)
    {
      ghost var refused := WillBeRefused();
      while true
        invariant Valid() && delivered == old(delivered)
        invariant old(emitted) ==>
                    stream == old(stream) && world.calls == old(world.calls) && world.streams == old(world.streams)
        invariant forall s :: s in world.streams ==> s in old(world.streams) || fresh(s)
        invariant world.calls >= old(world.calls) && (world.calls > old(world.calls) ==> world.refusal == None)
        invariant refused ==> WillBeRefused() && world.calls == old(world.calls) && world.script == old(world.script)
        decreases Attempts(policy) - attempt
      {
        var reply := stream.Recv();
        if reply.Produces? {
          emitted := true;
          delivered := delivered + [reply.event];
          return Some(reply.event), None;
        }
        var error := reply.error;
        if emitted || error.eof || error.canceled || !error.retryable || attempt >= Attempts(policy) {
          return None, Some(Given(error));
        }
        failure := Resend(error);
        if failure.Some? {
          return None, failure;
        }
      }
    }

    /** Waits, closes the stream that failed before it said anything, and asks again. */
    method Resend(error: Error) returns (failure: Option<Failure>)
      requires Valid() && !emitted && error.retryable && !error.canceled && attempt < Attempts(policy)
      modifies `stream, `attempt, `spent, world, stream`closed
      ensures Valid() && attempt >= old(attempt) && delivered == old(delivered) && !emitted
      ensures failure.None? ==> attempt == old(attempt) + 1
      ensures failure.Some? && failure.value.Given? ==>
                world.calls == old(world.calls) + 1 && world.refusal == Some(failure.value.error)
      ensures failure.Some? && !failure.value.Given? ==>
                world.calls == old(world.calls) && world.refusal == old(world.refusal)
      ensures failure.None? ==> world.refusal == None
      ensures policy.budget <= 0 && old(world.naps) == [] && old(world.script) != []
                && old(world.script)[0].Refuses? ==>
                failure == Some(Given(old(world.script)[0].error))
      ensures failure.Some? && !failure.value.Given? ==> MayGiveUp(policy, world.calls, spent, failure.value)
      ensures forall s :: s in world.streams ==> s in old(world.streams) || fresh(s)
    {
      var gaveUp, wait := WaitAgain(world, policy, attempt, spent, error);
      if gaveUp.Some? {
        return gaveUp;
      }
      spent := spent + wait;
      stream.Close();
      attempt := attempt + 1;
      var next, refused := world.Generate();
      if next == null {
        return Some(Given(refused));
      }
      stream := next;
      failure := None;
    }

    method Close()
      requires Valid()
      modifies stream`closed
      ensures Valid() && stream.closed
    {
      stream.Close();
    }
  }

  /** Opens a stream, trying again while the policy allows. */
  method Generate(world: World, policy: Policy) returns (r: RetryingStream?, failure: Option<Failure>)
    requires world.calls == 0 && world.streams == [] && world.waits == []
    modifies world
    ensures r != null ==> failure.None? && fresh(r) && r.Valid()
    ensures r != null ==> r.world == world && r.policy == policy && r.delivered == []
    ensures r != null ==> world.streams == [r.stream] && fresh(r.stream)
    ensures r == null ==> failure.Some? && Bounded(world, policy) && world.streams == []
                          && MayGiveUp(policy, world.calls, Total(world.waits), failure.value)
    ensures old(world.script) != [] && old(world.script)[0].Opens? ==>
              r != null && r.stream.replies == old(world.script)[0].replies && world.calls == 1
              && world.script == old(world.script)[1..] && world.naps == old(world.naps)
  {
    var attempts := Attempts(policy);
    var spent := 0;
    var attempt := 1;
    while attempt <= attempts
      invariant 1 <= attempt <= attempts && world.calls == attempt - 1
      invariant Bounded(world, policy) && world.streams == [] && spent == Total(world.waits)
      invariant attempt == 1 ==> world.script == old(world.script) && world.naps == old(world.naps)
      invariant attempt > 1 ==> !(old(world.script) != [] && old(world.script)[0].Opens?)
    {
      var stream, error := world.Generate();
      if stream != null {
        r := new RetryingStream(world, policy, stream, attempt, spent);
        return r, None;
      }
      if error.canceled {
        return null, Some(Given(error));
      }
      if !error.retryable || attempt == attempts {
        return null, Some(Given(error));
      }
      var gaveUp, wait := WaitAgain(world, policy, attempt, spent, error);
      if gaveUp.Some? {
        return null, gaveUp;
      }
      spent := spent + wait;
      attempt := attempt + 1;
    }
  }

  const BUSY := Error(false, false, true, None)

  /** A stream that fails before it says anything, and a provider too busy to open another: of four attempts two
      are made, and the caller is given an error that the policy would have tried again. */
  method AReadEndsEarly() returns (failure: Option<Failure>, calls: nat)
    ensures failure == Some(Given(BUSY)) && calls == 2
    ensures EndsEarly(Policy(4, 0, 0, 0.0, 0), calls, failure.value)
  {
    var world := new World([Opens([Fails(BUSY)]), Refuses(BUSY)], [], []);
    var policy := Policy(4, 0, 0, 0.0, 0);
    var stream, refused := Generate(world, policy);
    var event;
    event, failure := stream.Recv();
    calls := stream.attempt;
  }

  /** At most one stream is open at a time, and no event came from any other. */
  lemma {:induction false} OneOpenStream(s: RetryingStream, i: nat, j: nat)
    requires s.Valid() && i < |s.world.streams| && j < |s.world.streams|
    requires !s.world.streams[i].closed && !s.world.streams[j].closed
    ensures i == j
  {
  }

  /** Everything delivered is everything one stream produced; every other stream produced nothing. */
  lemma {:induction false} OneAttemptDelivers(s: RetryingStream, i: nat)
    requires s.Valid() && i < |s.world.streams| && s.world.streams[i].produced != []
    ensures s.world.streams[i] == s.stream && s.delivered == s.world.streams[i].produced
  {
  }
}
