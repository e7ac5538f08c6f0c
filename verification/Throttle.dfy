/** Slowing down guesses at the dashboard password. Times are whole nanoseconds. */
module Throttle {
  import opened Wrappers

  const SECOND := 1_000_000_000
  const FREE_FAILURES := 5
  const FAILURE_SPAN := 60 * SECOND
  const FORGIVE_AFTER := 600 * SECOND
  const LONGEST_DELAY := 60 * SECOND

  datatype State = State(failures: nat, first: int, last: int, until: Option<int>)

  const CLEAN := State(0, 0, 0, None)

  function Wait(s: State, now: int): (wait: int)
    ensures wait >= 0
  {
    if s.until.Some? && now < s.until.value then s.until.value - now else 0
  }

  function Power(n: nat): (r: nat)
    ensures r >= 1
  {
    if n == 0 then 1 else 2 * Power(n - 1)
  }

  /** The delay that starts with the failure that makes it `failures`. */
  function DelayFrom(failures: nat): int
    requires failures >= FREE_FAILURES
  {
    var step := failures - FREE_FAILURES;
    var delay := if step < 6 then SECOND * Power(step) else LONGEST_DELAY;
    if delay < LONGEST_DELAY then delay else LONGEST_DELAY
  }

  /** Whether a failure starts the count afresh. */
  predicate Forgiven(s: State, now: int) {
    s.failures > 0 &&
    (now - s.last > FORGIVE_AFTER || (s.failures < FREE_FAILURES && now - s.first > FAILURE_SPAN))
  }

  function Failed(s: State, now: int): State {
    var base := if Forgiven(s, now) then CLEAN else s;
    var failures := base.failures + 1;
    State(failures, if base.failures == 0 then now else base.first, now,
          if failures >= FREE_FAILURES then Some(now + DelayFrom(failures)) else base.until)
  }

  class Meter {
    var failures: nat
    var first: int
    var last: int
    var until: Option<int>

    ghost function Reading(): State
      reads this
    {
      State(failures, first, last, until)
    }

    constructor ()
      ensures Reading() == CLEAN
    {
      failures, first, last, until := 0, 0, 0, None;
    }

    method WaitFor(now: int) returns (wait: int)
      ensures wait == Wait(Reading(), now)
    {
      wait := 0;
      if until.Some? && now < until.value {
        wait := until.value - now;
      }
    }

    method Reset()
      modifies this
      ensures Reading() == CLEAN
    {
      failures, first, last, until := 0, 0, 0, None;
    }

    method Fail(now: int)
      modifies this
      ensures Reading() == Failed(old(Reading()), now)
    {
      if failures > 0 && (now - last > FORGIVE_AFTER || (failures < FREE_FAILURES && now - first > FAILURE_SPAN)) {
        Reset();
      }
      if failures == 0 {
        first := now;
      }
      failures := failures + 1;
      last := now;
      if failures >= FREE_FAILURES {
        var delay := LONGEST_DELAY;
        var step := failures - FREE_FAILURES;
        if step < 6 {
          delay := SECOND * Power(step);
        }
        until := Some(now + if delay < LONGEST_DELAY then delay else LONGEST_DELAY);
      }
    }
  }

  // ---- runs of wrong guesses ------------------------------------------------------------------

  /** A wrong guess: when it was let in and when it was counted. Guesses are looked at one at a time. */
  datatype Guess = Guess(asked: int, counted: int)

  function After(guesses: seq<Guess>): State {
    if guesses == [] then CLEAN else Failed(After(guesses[..|guesses| - 1]), guesses[|guesses| - 1].counted)
  }

  /** Each guess begins after the one before is counted, and is let in. */
  ghost predicate LetIn(guesses: seq<Guess>)
    decreases |guesses|
  {
    if guesses == [] then true
    else
      var before, last := guesses[..|guesses| - 1], guesses[|guesses| - 1];
      && LetIn(before) && last.asked <= last.counted
      && (before != [] ==> before[|before| - 1].counted <= last.asked)
      && Wait(After(before), last.asked) == 0
  }

  /** The k-th failure of a spell holds the next guess off for twice as long as the one before, up to a minute. */
  lemma {:induction false} DelayIs(k: nat)
    requires k >= FREE_FAILURES
    ensures DelayFrom(k) == if k >= 11 then 60 * SECOND else SECOND * Power(k - 5)
    ensures DelayFrom(k) >= SECOND
  {
    if k < 11 {
      assert Power(0) == 1 && Power(1) == 2 && Power(2) == 4 && Power(3) == 8 && Power(4) == 16 && Power(5) == 32;
    }
  }

  lemma {:induction false} LetInPrefix(guesses: seq<Guess>, n: nat)
    requires LetIn(guesses) && n <= |guesses|
    ensures LetIn(guesses[..n])
  {
    if n == |guesses| {
      assert guesses[..n] == guesses;
    } else {
      assert guesses[..|guesses| - 1][..n] == guesses[..n];
      LetInPrefix(guesses[..|guesses| - 1], n);
    }
  }

  // ---- the count, by the times of the guesses --------------------------------------------------

  /** The count is of the latest guesses: it began with the `failures`-th last of them. Nothing is held off before
      the fifth. */
  lemma {:induction false} CountIsOfTheLatest(guesses: seq<Guess>)
    ensures var s := After(guesses);
            && s.failures <= |guesses| && (guesses != [] ==> s.failures >= 1)
            && (s.failures >= 1 ==> s.first == guesses[|guesses| - s.failures].counted)
            && (s.failures >= 1 ==> s.last == guesses[|guesses| - 1].counted)
            && (s.failures < 5 ==> s.until == None)
  {
    if guesses != [] {
      CountIsOfTheLatest(guesses[..|guesses| - 1]);
    }
  }

  /** The guess was counted more than so many seconds after the last of some. */
  ghost predicate Paused(guesses: seq<Guess>, g: Guess, seconds: int) {
    guesses != [] && g.counted - guesses[|guesses| - 1].counted > seconds * 1_000_000_000
  }

  /** A failure starts the count afresh exactly when it is the first, or more than ten minutes after the one before,
      or comes with fewer than five counted and more than a minute after the first of those. Otherwise it is one
      more. */
  lemma {:induction false} CountsAfreshIff(guesses: seq<Guess>, g: Guess)
    ensures var n, now := After(guesses).failures, After(guesses + [g]).failures;
            && n <= |guesses|
            && (now == 1 <==>
                || n == 0 || Paused(guesses, g, 600)
                || (n < 5 && Paused(guesses[..|guesses| - n + 1], g, 60)))
            && (now != 1 ==> now == n + 1)
  {
    CountIsOfTheLatest(guesses);
    assert (guesses + [g])[..|guesses|] == guesses;
  }

  /** How long the next guess has to wait, by how many failures are counted and when the last was: not at all after
      fewer than five, and then a second, doubling up to a minute, from the last failure on. */
  lemma {:induction false} WaitIs(guesses: seq<Guess>, now: int)
    ensures var s := After(guesses);
            var delay := if s.failures >= 11 then 60 else if s.failures >= 5 then Power(s.failures - 5) else 0;
            guesses != [] ==>
              var ends := guesses[|guesses| - 1].counted + delay * 1_000_000_000;
              Wait(s, now) == if s.failures >= 5 && now < ends then ends - now else 0
  {
    if guesses != [] {
      CountIsOfTheLatest(guesses);
      AfterIs(guesses);
      if After(guesses).failures >= 5 {
        DelayIs(After(guesses).failures);
      }
    }
  }

  /** What the last failure left behind. */
  lemma {:induction false} AfterIs(guesses: seq<Guess>)
    requires guesses != []
    ensures var s := After(guesses);
            && s.failures >= 1 && s.last == guesses[|guesses| - 1].counted
            && (s.failures >= FREE_FAILURES ==> s.until == Some(s.last + DelayFrom(s.failures)))
  {
  }

  /** A guess that comes after `k >= 5` failures of a spell comes at least the delay of the k-th after it. */
  lemma {:induction false} HeldOff(guesses: seq<Guess>, g: Guess)
    requires LetIn(guesses + [g]) && guesses != [] && After(guesses).failures >= FREE_FAILURES
    ensures g.asked - guesses[|guesses| - 1].counted >= DelayFrom(After(guesses).failures)
  {
    assert (guesses + [g])[..|guesses|] == guesses;
    AfterIs(guesses);
  }

  /** The least time from the fifth failure to the n-th after it. */
  function LeastTime(n: nat): int {
    if n == 0 then 0 else LeastTime(n - 1) + DelayFrom(4 + n)
  }

  lemma {:induction false} LeastTimeNext(n: nat)
    requires n > 0
    ensures LeastTime(n) == LeastTime(n - 1) + DelayFrom(4 + n)
  {
  }

  lemma {:induction false} LeastTimeIs(n: nat)
    ensures n >= 6 ==> LeastTime(n) == (63 + 60 * (n - 6)) * SECOND
    ensures LeastTime(n) >= 0
  {
    if n > 0 {
      DelayIs(4 + n);
      LeastTimeIs(n - 1);
      if n == 6 {
        DelayIs(5);
        DelayIs(6);
        DelayIs(7);
        DelayIs(8);
        DelayIs(9);
        assert Power(1) == 2 && Power(2) == 4 && Power(3) == 8 && Power(4) == 16 && Power(5) == 32;
        assert LeastTime(1) == LeastTime(0) + DelayFrom(5);
        assert LeastTime(2) == LeastTime(1) + DelayFrom(6);
        assert LeastTime(3) == LeastTime(2) + DelayFrom(7);
        assert LeastTime(4) == LeastTime(3) + DelayFrom(8);
        assert LeastTime(5) == LeastTime(4) + DelayFrom(9);
      }
    }
  }

  /** No pause long enough to be forgiven, from the m-th guess on. */
  ghost predicate NoPause(guesses: seq<Guess>, m: nat)
    decreases |guesses|
  {
    |guesses| <= m + 1 ||
    (guesses[|guesses| - 1].counted - guesses[|guesses| - 2].counted <= FORGIVE_AFTER
        && NoPause(guesses[..|guesses| - 1], m))
  }

  /** Once five failures have counted, the n-th after them comes no sooner than the delays add up to. */
  lemma {:induction false} SpellTakes(guesses: seq<Guess>, m: nat)
    requires LetIn(guesses) && m < |guesses| && NoPause(guesses, m) && After(guesses[..m + 1]).failures == FREE_FAILURES
    ensures var n := |guesses| - 1 - m;
            && After(guesses).failures == FREE_FAILURES + n
            && guesses[|guesses| - 1].counted - guesses[m].counted >= LeastTime(n)
  {
    var n := |guesses| - 1 - m;
    hide LetIn, After, DelayFrom, LeastTime, Power;
    if n == 0 {
      assert guesses[..m + 1] == guesses;
      NoTime();
    } else {
      var before, g := guesses[..|guesses| - 1], guesses[|guesses| - 1];
      assert guesses == before + [g];
      assert before[..m + 1] == guesses[..m + 1];
      LetInPrefix(guesses, |guesses| - 1);
      SpellTakes(before, m);
      OneMore(before, g);
      LeastTimeNext(n);
    }
  }

  lemma {:induction false} NoTime()
    ensures LeastTime(0) == 0
  {
  }

  /** From the sixth failure after the fifth on that is 63 seconds, and a minute for each further one. */
  lemma {:induction false} LongSpellTakes(guesses: seq<Guess>, m: nat)
    requires LetIn(guesses) && m < |guesses| && NoPause(guesses, m) && After(guesses[..m + 1]).failures == FREE_FAILURES
    requires |guesses| - 1 - m >= 6
    ensures guesses[|guesses| - 1].counted - guesses[m].counted >= (63 + 60 * (|guesses| - 1 - m - 6)) * SECOND
  {
    hide LetIn, After, NoPause;
    SpellTakes(guesses, m);
    LeastTimeIs(|guesses| - 1 - m);
  }

  lemma {:induction false} OneMore(before: seq<Guess>, g: Guess)
    requires LetIn(before + [g]) && before != [] && After(before).failures >= FREE_FAILURES
    requires g.counted - before[|before| - 1].counted <= FORGIVE_AFTER
    ensures After(before + [g]).failures == After(before).failures + 1
    ensures g.counted - before[|before| - 1].counted >= DelayFrom(After(before).failures)
  {
    assert (before + [g])[..|before|] == before;
    HeldOff(before, g);
    AfterIs(before);
  }

  // ---- whatever the guesser does -----------------------------------------------------------------

  /** How long a spell of `f` failures lasts at least. */
  function SpellFloor(f: nat): int {
    if f <= FREE_FAILURES then 0 else LeastTime(f - FREE_FAILURES)
  }

  lemma {:induction false} FloorNext(f: nat)
    requires f >= FREE_FAILURES
    ensures SpellFloor(f + 1) == SpellFloor(f) + DelayFrom(f)
  {
    assert LeastTime(f + 1 - FREE_FAILURES) == LeastTime(f - FREE_FAILURES) + DelayFrom(4 + (f + 1 - FREE_FAILURES));
  }

  lemma {:induction false} FloorCovers(f: nat)
    ensures 15 * f * SECOND <= SpellFloor(f) + 120 * SECOND
    ensures SpellFloor(f) >= 0
  {
    if f > 11 {
      LeastTimeIs(f - FREE_FAILURES);
    } else if f > FREE_FAILURES {
      LeastTimeIs(f - FREE_FAILURES);
      SmallTimes();
    }
  }

  lemma {:induction false} SmallTimes()
    ensures LeastTime(1) == SECOND && LeastTime(2) == 3 * SECOND && LeastTime(3) == 7 * SECOND
    ensures LeastTime(4) == 15 * SECOND && LeastTime(5) == 31 * SECOND && LeastTime(6) == 63 * SECOND
  {
    DelayIs(5);
    DelayIs(6);
    DelayIs(7);
    DelayIs(8);
    DelayIs(9);
    DelayIs(10);
    assert Power(0) == 1 && Power(1) == 2 && Power(2) == 4 && Power(3) == 8 && Power(4) == 16 && Power(5) == 32;
    assert LeastTime(0) == 0;
    assert LeastTime(1) == LeastTime(0) + DelayFrom(5);
    assert LeastTime(2) == LeastTime(1) + DelayFrom(6);
    assert LeastTime(3) == LeastTime(2) + DelayFrom(7);
    assert LeastTime(4) == LeastTime(3) + DelayFrom(8);
    assert LeastTime(5) == LeastTime(4) + DelayFrom(9);
  }

  /** The spell in progress has lasted as long as its delays, and the failures before it have been paid
      for by the time before it, fifteen seconds each. */
  ghost predicate PaidFor(guesses: seq<Guess>) {
    var s := After(guesses);
    && guesses != [] && 1 <= s.failures <= |guesses| && s.last == guesses[|guesses| - 1].counted
    && s.last - s.first >= SpellFloor(s.failures)
    && 15 * (|guesses| - s.failures) * SECOND <= s.first - guesses[0].counted
  }

  lemma {:induction false} AlwaysPaidFor(guesses: seq<Guess>)
    requires LetIn(guesses) && guesses != []
    ensures PaidFor(guesses)
  {
    var before, g := guesses[..|guesses| - 1], guesses[|guesses| - 1];
    assert guesses == before + [g];
    if before == [] {
      assert After(guesses) == Failed(CLEAN, g.counted);
    } else {
      AlwaysPaidFor(before);
      PaysForNext(before, g);
    }
  }

  lemma {:induction false} PaysForNext(before: seq<Guess>, g: Guess)
    requires LetIn(before + [g]) && before != [] && PaidFor(before)
    ensures PaidFor(before + [g])
  {
    var s := After(before);
    assert (before + [g])[..|before|] == before;
    FloorCovers(s.failures);
    if s.failures >= FREE_FAILURES {
      HeldOff(before, g);
      FloorNext(s.failures);
    }
  }

  /** However a guesser times wrong guesses, bursts and pauses included, `n` of them take at least fifteen
      seconds each but for the first eight: four a minute is the most that can be kept up. */
  lemma {:induction false} GuessRate(guesses: seq<Guess>)
    requires LetIn(guesses) && guesses != []
    ensures guesses[|guesses| - 1].counted - guesses[0].counted >= 15 * (|guesses| - 8) * SECOND
  {
    AlwaysPaidFor(guesses);
    FloorCovers(After(guesses).failures);
  }
}
