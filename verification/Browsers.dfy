/** Pairing codes, browser sessions and the dashboard password.

    A secret is a number nobody else is given; what is held for it stands for its hash. Each method
    below runs under the lock; `now` is what the clock says when it does.
  */
module Browsers {
  import opened Wrappers
  import Throttle

  type Secret = nat
  type Time = int

  const SECOND := Throttle.SECOND
  const PAIRING_TTL := 60 * SECOND
  const SESSION_TTL := 12 * 3600 * SECOND
  const SETUP_TTL := 15 * 60 * SECOND
  const MAX_LIVE := 16
  const MIN_PASSWORD := 10
  const MAX_PASSWORD := 256

  predicate ValidPassword(password: string) {
    MIN_PASSWORD <= |password| <= MAX_PASSWORD
  }

  datatype Scope = Control | Setup

  datatype Check = Throttled(wait: int) | Wrong | Right

  datatype Admission = Admitted(token: Secret, expires: Time) | Refused(check: Check)

  datatype Change = BadPolicy | SameAsInitial | NotAllowed(check: Check) | NotSaved | Changed(token: Option<Secret>)

  /** What a secret was given out as. A session remembers the code it was traded for, if any. */
  datatype Kind = Code | Session(code: Option<Secret>) | SetupSession

  datatype Issue = Issue(kind: Kind, expires: Time)

  // ---- what is held -------------------------------------------------------------------

  function Live(held: map<Secret, Time>, now: Time): (live: map<Secret, Time>)
    ensures forall k :: k in live <==> k in held && now < held[k]
    ensures forall k :: k in live ==> live[k] == held[k]
  {
    map k | k in held && now < held[k] :: held[k]
  }

  lemma {:induction false} Fewer(a: set<Secret>, b: set<Secret>)
    requires a <= b
    ensures |a| <= |b|
  {
    if a != {} {
      var x :| x in a;
      Fewer(a - {x}, b - {x});
    }
  }

  lemma {:induction false} FewerHeld(a: map<Secret, Time>, b: map<Secret, Time>)
    requires a.Keys <= b.Keys
    ensures |a| <= |b|
  {
    Fewer(a.Keys, b.Keys);
    assert |a| == |a.Keys| && |b| == |b.Keys|;
  }

  method DropExpired(held: map<Secret, Time>, now: Time) returns (live: map<Secret, Time>)
    ensures live == Live(held, now)
  {
    live := map[];
    var left := held.Keys;
    while left != {}
      invariant left <= held.Keys
      invariant forall k :: k in live <==> k in held && k !in left && now < held[k]
      invariant forall k :: k in live ==> live[k] == held[k]
      decreases |left|
    {
      var k :| k in left;
      if now < held[k] {
        live := live[k := held[k]];
      }
      left := left - {k};
    }
  }

  /** Gives up the entry that runs out first. */
  method DropOldest(held: map<Secret, Time>) returns (left: map<Secret, Time>)
    ensures held == map[] ==> left == held
    ensures held != map[] ==>
              exists oldest :: oldest in held && left == held - {oldest} && forall k :: k in held ==>
                  held[oldest] <= held[k]
    ensures held != map[] ==> |left| == |held| - 1
  {
    if held.Keys == {} {
      return held;
    }
    var oldest :| oldest in held;
    var rest := held.Keys - {oldest};
    while rest != {}
      invariant oldest in held && rest <= held.Keys
      invariant forall k :: k in held && k !in rest ==> held[oldest] <= held[k]
      decreases |rest|
    {
      var k :| k in rest;
      if held[k] < held[oldest] {
        oldest := k;
      }
      rest := rest - {k};
    }
    left := held - {oldest};
    assert left.Keys == held.Keys - {oldest};
    assert |left| == |left.Keys| && |held| == |held.Keys|;
  }

  // ---- what is kept -------------------------------------------------------------------

  /** Everything held, and everything that was ever issued. */
  datatype State = State(
    codes: map<Secret, Time>, sessions: map<Secret, Time>, setup: map<Secret, Time>,
    passwordSet: bool, next: Secret, issued: map<Secret, Issue>)

  predicate IsTrade(issue: Issue) {
    issue.kind.Session? && issue.kind.code.Some?
  }

  /** What is held was issued as what it is held as, with the expiry it was issued with. */
  ghost predicate HeldAsIssued(s: State) {
    && (forall k :: k in s.codes ==> k in s.issued && s.issued[k] == Issue(Code, s.codes[k]))
    && (forall k :: k in s.sessions ==>
          k in s.issued && s.issued[k].kind.Session? && s.issued[k].expires == s.sessions[k])
    && (forall k :: k in s.setup ==> k in s.issued && s.issued[k] == Issue(SetupSession, s.setup[k]))
  }

  /** `code` was issued as a code and is spent. */
  ghost predicate Spent(s: State, code: Secret) {
    code in s.issued && s.issued[code].kind.Code? && code !in s.codes
  }

  /** A code is traded at most once, and not held any more once it is. */
  ghost predicate TradedOnce(s: State) {
    && (forall k :: k in s.issued && IsTrade(s.issued[k]) ==> Spent(s, s.issued[k].kind.code.value))
    && (forall j, k :: j in s.issued && k in s.issued && SameTrade(s.issued[j], s.issued[k]) ==> j == k)
  }

  predicate SameTrade(a: Issue, b: Issue) {
    IsTrade(a) && IsTrade(b) && a.kind.code == b.kind.code
  }

  ghost predicate Bounded(s: State) {
    |s.codes| <= MAX_LIVE && |s.sessions| <= MAX_LIVE && |s.setup| <= MAX_LIVE
  }

  ghost predicate Ok(s: State) {
    && Bounded(s) && HeldAsIssued(s) && TradedOnce(s)
    && (forall k :: k in s.issued ==> k < s.next)
    && (s.setup != map[] ==> !s.passwordSet)
  }

  /** Holding less of what is held is always fine. */
  ghost predicate HoldsLess(s: State, r: State) {
    && r.issued == s.issued && r.next == s.next
    && r.codes.Keys <= s.codes.Keys && (forall k :: k in r.codes ==> r.codes[k] == s.codes[k])
    && r.sessions.Keys <= s.sessions.Keys && (forall k :: k in r.sessions ==> r.sessions[k] == s.sessions[k])
    && r.setup.Keys <= s.setup.Keys && (forall k :: k in r.setup ==> r.setup[k] == s.setup[k])
    && (r.setup == map[] || r.passwordSet == s.passwordSet)
  }

  lemma {:induction false} LessOk(s: State, r: State)
    requires Ok(s) && HoldsLess(s, r)
    ensures Ok(r)
  {
    FewerHeld(r.codes, s.codes);
    FewerHeld(r.sessions, s.sessions);
    FewerHeld(r.setup, s.setup);
    assert forall k :: Spent(s, k) ==> Spent(r, k);
  }

  lemma {:induction false} OneMore(held: map<Secret, Time>, k: Secret, at: Time)
    requires k !in held
    ensures |held[k := at]| == |held| + 1
  {
    assert held[k := at].Keys == held.Keys + {k};
    assert |held[k := at]| == |held[k := at].Keys| && |held| == |held.Keys|;
  }

  function WithCode(s: State, expires: Time): State {
    s.(codes := s.codes[s.next := expires], issued := s.issued[s.next := Issue(Code, expires)], next := s.next + 1)
  }

  /** A code that is spent and has not been traded yet. */
  ghost predicate Untraded(s: State, code: Secret) {
    Spent(s, code) && forall k :: k in s.issued && IsTrade(s.issued[k]) ==> s.issued[k].kind.code != Some(code)
  }

  lemma {:induction false} UntradedStays(s: State, r: State, code: Secret)
    requires Untraded(s, code) && r.issued == s.issued && r.codes == s.codes
    ensures Untraded(r, code)
  {
  }

  ghost predicate Issues(s: State, r: State, issue: Issue) {
    r.issued == s.issued[s.next := issue] && r.next == s.next + 1
  }

  /** Issuing one secret more keeps every code traded at most once. */
  lemma {:induction false} TradedMore(s: State, r: State, issue: Issue)
    requires Ok(s) && Issues(s, r, issue) && r.codes.Keys <= s.codes.Keys + {s.next}
    requires IsTrade(issue) ==> Untraded(s, issue.kind.code.value)
    ensures TradedOnce(r)
  {
    hide HeldAsIssued, Bounded;
    forall k | k in r.issued && IsTrade(r.issued[k]) ensures Spent(r, r.issued[k].kind.code.value) {
      var code := r.issued[k].kind.code.value;
      assert k != s.next ==> r.issued[k] == s.issued[k];
      assert Spent(s, code) && code < s.next;
    }
    forall j, k | j in r.issued && k in r.issued && SameTrade(r.issued[j], r.issued[k]) ensures j == k {
      assert j != s.next ==> r.issued[j] == s.issued[j];
      assert k != s.next ==> r.issued[k] == s.issued[k];
    }
  }

  lemma {:induction false} HeldMore(s: State, r: State, issue: Issue)
    requires Ok(s) && Issues(s, r, issue)
    requires (issue.kind.Code? && r == WithCode(s, issue.expires))
          || (issue.kind.Session? && r == WithSession(s, issue.kind.code, issue.expires))
          || (issue.kind.SetupSession? && r == WithSetup(s, issue.expires))
    ensures HeldAsIssued(r) && (forall k :: k in r.issued ==> k < r.next) && s.next !in s.issued
    ensures s.next !in s.codes && s.next !in s.sessions && s.next !in s.setup
  {
    hide TradedOnce, Bounded;
  }

  lemma {:induction false} CodeOk(s: State, expires: Time)
    requires Ok(s) && |s.codes| < MAX_LIVE
    ensures Ok(WithCode(s, expires)) && s.next !in s.issued
  {
    hide HeldAsIssued, TradedOnce;
    var r := WithCode(s, expires);
    HeldMore(s, r, Issue(Code, expires));
    TradedMore(s, r, Issue(Code, expires));
    OneMore(s.codes, s.next, expires);
  }

  function WithSession(s: State, code: Option<Secret>, expires: Time): State {
    s.(sessions := s.sessions[s.next := expires], issued := s.issued[s.next := Issue(Session(code), expires)],
       next := s.next + 1)
  }

  lemma {:induction false} SessionOk(s: State, code: Option<Secret>, expires: Time)
    requires Ok(s) && |s.sessions| < MAX_LIVE && (code.Some? ==> Untraded(s, code.value))
    ensures Ok(WithSession(s, code, expires)) && s.next !in s.issued
  {
    hide HeldAsIssued, TradedOnce;
    var r := WithSession(s, code, expires);
    HeldMore(s, r, Issue(Session(code), expires));
    TradedMore(s, r, Issue(Session(code), expires));
    OneMore(s.sessions, s.next, expires);
  }

  function WithSetup(s: State, expires: Time): State {
    s.(setup := s.setup[s.next := expires], issued := s.issued[s.next := Issue(SetupSession, expires)],
       next := s.next + 1)
  }

  lemma {:induction false} SetupOk(s: State, expires: Time)
    requires Ok(s) && |s.setup| < MAX_LIVE && !s.passwordSet
    ensures Ok(WithSetup(s, expires)) && s.next !in s.issued
  {
    hide HeldAsIssued, TradedOnce;
    var r := WithSetup(s, expires);
    HeldMore(s, r, Issue(SetupSession, expires));
    TradedMore(s, r, Issue(SetupSession, expires));
    OneMore(s.setup, s.next, expires);
  }

  /** A code that is held has not been traded. */
  lemma {:induction false} HeldIsUntraded(s: State, code: Secret)
    requires Ok(s) && code in s.codes
    ensures Untraded(s.(codes := s.codes - {code}), code)
  {
  }

  /** A secret traded for a code answers for that code alone, and no code answers twice. */
  lemma {:induction false} OneSessionPerCode(s: State, j: Secret, k: Secret, code: Secret)
    requires Ok(s) && j in s.issued && k in s.issued
    requires s.issued[j].kind == Session(Some(code)) && s.issued[k].kind == Session(Some(code))
    ensures j == k && code !in s.codes
  {
    assert IsTrade(s.issued[j]) && IsTrade(s.issued[k]);
  }

  /** Nothing that is held answers for something it was not issued as. */
  lemma {:induction false} HeldIs(s: State, k: Secret)
    requires Ok(s)
    ensures k in s.sessions ==> k in s.issued && s.issued[k].kind.Session? && s.issued[k].expires == s.sessions[k]
    ensures k in s.setup ==> k in s.issued && s.issued[k] == Issue(SetupSession, s.setup[k]) && !s.passwordSet
    ensures k in s.sessions ==> k !in s.setup
  {
  }

  function Expired(s: State, now: Time): State {
    s.(codes := Live(s.codes, now), sessions := Live(s.sessions, now), setup := Live(s.setup, now))
  }

  lemma {:induction false} ExpiredOk(s: State, now: Time)
    requires Ok(s)
    ensures Ok(Expired(s, now))
  {
    LessOk(s, Expired(s, now));
  }

  lemma {:induction false} SizesOk(s: State)
    requires Ok(s)
    ensures Bounded(s)
  {
  }

  /** `left` is `held`, less what runs out first if there is no room for one more. */
  ghost predicate MakesRoom(held: map<Secret, Time>, left: map<Secret, Time>) {
    if |held| < MAX_LIVE then left == held
    else exists oldest :: oldest in held && left == held - {oldest} && forall k :: k in held ==> held[oldest] <= held[k]
  }

  lemma {:induction false} AllGone(kept: map<Secret, Time>)
    ensures MakesRoom(map[], kept) ==> kept == map[]
  {
  }

  method MakeRoom(held: map<Secret, Time>) returns (left: map<Secret, Time>)
    requires |held| <= MAX_LIVE
    ensures MakesRoom(held, left) && |left| < 16
    ensures left.Keys <= held.Keys && forall k :: k in left ==> left[k] == held[k]
  {
    left := held;
    if |held| >= MAX_LIVE {
      left := DropOldest(held);
    }
  }

  class Browsers {
    const initial: string
    var codes: map<Secret, Time>
    var sessions: map<Secret, Time>
    var setup: map<Secret, Time>
    var password: Option<string>
    var failed: Throttle.State
    var next: Secret

    ghost var issued: map<Secret, Issue>

    ghost function Now(): State
      reads this
    {
      State(codes, sessions, setup, password.Some?, next, issued)
    }

    ghost predicate Valid()
      reads this
    {
      Ok(Now())
    }

    /** Starts with what was saved: the password, if there was one, and the sessions still live. */
    constructor (initial: string, password: Option<string>, saved: map<Secret, Time>, next: Secret, now: Time)
      requires forall k :: k in saved ==> k < next
      ensures Valid() && this.initial == initial && this.password == password
      ensures codes == map[] && setup == map[] && failed == Throttle.CLEAN
      ensures sessions.Keys <= Live(saved, now).Keys && forall k :: k in sessions ==>
                sessions[k] == saved[k] && now < saved[k]
      ensures |Live(saved, now)| <= 16 ==> sessions == Live(saved, now)
    {
      var live := DropExpired(saved, now);
      FewerHeld(live, saved);
      while |live| > MAX_LIVE
        invariant live.Keys <= Live(saved, now).Keys && forall k :: k in live ==> live[k] == saved[k]
        invariant live == Live(saved, now) || |live| >= MAX_LIVE
        invariant |Live(saved, now)| <= MAX_LIVE ==> live == Live(saved, now)
        decreases |live|
      {
        live := DropOldest(live);
      }
      this.initial, this.password, this.next := initial, password, next;
      codes, setup, failed := map[], map[], Throttle.CLEAN;
      sessions := live;
      issued := map k | k in live :: Issue(Session(None), live[k]);
    }

    method Expire(now: Time)
      requires Valid()
      modifies `codes, `sessions, `setup
      ensures Valid() && Now() == Expired(old(Now()), now)
    {
      hide Ok, Live;
      ExpiredOk(Now(), now);
      codes := DropExpired(codes, now);
      sessions := DropExpired(sessions, now);
      setup := DropExpired(setup, now);
    }

    /** Makes a code that one browser can trade for a session, once. */
    method Pair(now: Time) returns (code: Option<Secret>)
      requires Valid()
      modifies `codes, `sessions, `setup, `next, `issued
      ensures Valid() && (code.Some? ==> code.value !in old(issued))
      ensures code.None? <==> |Live(old(codes), now)| >= 16
      ensures Now() == if code.None? then Expired(old(Now()), now)
                else WithCode(Expired(old(Now()), now), now + 60 * 1_000_000_000)
      ensures code.Some? ==> code.value == old(next)
    {
      hide Ok;
      Expire(now);
      if |codes| >= MAX_LIVE {
        return None;
      }
      var secret := next;
      CodeOk(Now(), now + PAIRING_TTL);
      next := next + 1;
      codes := codes[secret := now + PAIRING_TTL];
      issued := issued[secret := Issue(Code, now + PAIRING_TTL)];
      return Some(secret);
    }

    /** Makes a session. The one that runs out first gives way when there are too many. */
    method IssueSession(now: Time, ghost code: Option<Secret>) returns (token: Secret, ghost kept: map<Secret, Time>)
      requires Valid() && (code.Some? ==> Untraded(Now(), code.value))
      modifies `sessions, `next, `issued
      ensures Valid() && token !in old(issued) && token == old(next) && MakesRoom(old(sessions), kept)
      ensures Now() == WithSession(old(Now()).(sessions := kept), code, now + 12 * 3600 * 1_000_000_000)
    {
      hide Ok, MakesRoom, Untraded;
      SizesOk(Now());
      sessions := MakeRoom(sessions);
      if code.Some? {
        UntradedStays(old(Now()), Now(), code.value);
      }
      LessOk(old(Now()), Now());
      kept := sessions;
      SessionOk(Now(), code, now + SESSION_TTL);
      token := next;
      next := next + 1;
      sessions := sessions[token := now + SESSION_TTL];
      issued := issued[token := Issue(Session(code), now + SESSION_TTL)];
    }

    /** Makes a session that is good for changing the password and nothing else. */
    method IssueSetup(now: Time) returns (token: Secret, ghost kept: map<Secret, Time>)
      requires Valid() && password.None?
      modifies `setup, `next, `issued
      ensures Valid() && token !in old(issued) && token == old(next) && MakesRoom(old(setup), kept)
      ensures Now() == WithSetup(old(Now()).(setup := kept), now + 900 * 1_000_000_000)
    {
      hide Ok, MakesRoom;
      SizesOk(Now());
      setup := MakeRoom(setup);
      LessOk(old(Now()), Now());
      kept := setup;
      SetupOk(Now(), now + SETUP_TTL);
      token := next;
      next := next + 1;
      setup := setup[token := now + SETUP_TTL];
      issued := issued[token := Issue(SetupSession, now + SETUP_TTL)];
    }

    /** Trades a code for a session. The code is spent. */
    method Redeem(code: Secret, now: Time) returns (token: Option<Secret>, ghost kept: map<Secret, Time>)
      requires Valid()
      modifies `codes, `sessions, `setup, `next, `issued
      ensures Valid()
      ensures token.Some? <==> code in old(codes) && now < old(codes)[code]
      ensures token.None? ==> Now() == Expired(old(Now()), now)
      ensures token.Some? ==>
                token.value !in old(issued) && token.value == old(next) && MakesRoom(Live(old(sessions), now), kept)
      ensures token.Some? ==>
                var held := Expired(old(Now()), now);
                Now() == WithSession(held.(codes := held.codes - {code}, sessions := kept), Some(code),
                    now + 12 * 3600 * 1_000_000_000)
    {
      hide Ok;
      Expire(now);
      kept := sessions;
      if code !in codes {
        return None, kept;
      }
      ghost var held := Now();
      HeldIsUntraded(held, code);
      codes := codes - {code};
      LessOk(held, Now());
      var secret;
      secret, kept := IssueSession(now, Some(code));
      return Some(secret), kept;
    }

    /** What a presented credential may reach. */
    method Lookup(value: Secret, now: Time) returns (scope: Option<Scope>)
      requires Valid()
      modifies `codes, `sessions, `setup
      ensures Valid() && Now() == Expired(old(Now()), now)
      ensures scope == Some(Control) <==> value in old(sessions) && now < old(sessions)[value]
      ensures scope == Some(Setup) <==> value in old(setup) && now < old(setup)[value]
      ensures scope.Some? ==> value in issued && now < issued[value].expires
                              && (if scope.value.Control? then issued[value].kind.Session?
                                   else issued[value].kind.SetupSession? && password.None?)
    {
      hide Ok;
      HeldIs(Now(), value);
      Expire(now);
      if value in sessions {
        return Some(Control);
      }
      if value in setup {
        return Some(Setup);
      }
      return None;
    }

    // ---- the password -------------------------------------------------------------------

    ghost predicate IsPassword(given: string)
      reads this
    {
      if password.None? then given == initial else given == password.value && |given| <= 256
    }

    /** Looks at a password unless too many have been wrong, and counts it if it is wrong.
        `asked` is when it is let in and `counted` when the answer is known. */
    method CheckPassword(given: string, asked: Time, counted: Time) returns (check: Check)
      requires Valid()
      modifies `failed
      ensures Valid()
      ensures check == (if Throttle.Wait(old(failed), asked) > 0 then Throttled(Throttle.Wait(old(failed), asked))
                        else if IsPassword(given) then Right else Wrong)
      ensures failed == (if check.Throttled? then old(failed)
                         else if check.Right? then Throttle.CLEAN else Throttle.Failed(old(failed), counted))
    {
      var wait := Throttle.Wait(failed, asked);
      if wait > 0 {
        return Throttled(wait);
      }
      var ok := if password.None? then given == initial else given == password.value && |given| <= MAX_PASSWORD;
      if !ok {
        failed := Throttle.Failed(failed, counted);
        return Wrong;
      }
      failed := Throttle.CLEAN;
      return Right;
    }

    /** Trades the password for a session; the initial one gets a setup session. */
    method Login(given: string, asked: Time, counted: Time, now: Time)
        returns (r: Admission, ghost kept: map<Secret, Time>)
      requires Valid()
      modifies this
      ensures Valid() && password == old(password)
      ensures r.Admitted? <==> Throttle.Wait(old(failed), asked) == 0 && old(IsPassword(given))
      ensures r.Refused? ==> Now() == old(Now())
      ensures r.Admitted? ==> r.token !in old(issued) && r.token == old(next) && failed == Throttle.CLEAN
      ensures r.Admitted? && password.None? ==>
                MakesRoom(Live(old(setup), now), kept)
                && Now() == WithSetup(Expired(old(Now()), now).(setup := kept), now + 900 * 1_000_000_000)
      ensures r.Admitted? && password.Some? ==>
                MakesRoom(Live(old(sessions), now), kept)
                && Now() == WithSession(Expired(old(Now()), now).(sessions := kept), None,
                                         now + 12 * 3600 * 1_000_000_000)
    {
      hide Ok;
      kept := map[];
      var check := CheckPassword(given, asked, counted);
      if !check.Right? {
        return Refused(check), kept;
      }
      Expire(now);
      var token;
      if password.None? {
        token, kept := IssueSetup(now);
        return Admitted(token, now + SETUP_TTL), kept;
      }
      token, kept := IssueSession(now, None);
      return Admitted(token, now + SESSION_TTL), kept;
    }

    /** Nothing while the password is the initial one; otherwise the current one is asked for. */
    method RequireCurrent(current: string, asked: Time, counted: Time) returns (check: Check)
      requires Valid()
      modifies `failed
      ensures Valid()
      ensures check.Right? ==> password.None? || (current != "" && IsPassword(current))
      ensures password.None? ==> check.Right? && failed == old(failed)
      ensures current == "" && password.Some? ==> check.Wrong? && failed == old(failed)
    {
      if password.None? {
        return Right;
      }
      if current == "" {
        return Wrong;
      }
      check := CheckPassword(current, asked, counted);
    }

    /** Signs out everybody but the one session presented, if it is one. */
    method RevokeExcept(keep: Option<Secret>)
      requires Valid()
      modifies `sessions, `setup
      ensures Valid() && setup == map[] && issued == old(issued)
      ensures sessions == if keep.Some? && keep.value in old(sessions)
                then map[keep.value := old(sessions)[keep.value]] else map[]
    {
      hide Ok;
      var kept: Option<Time> := None;
      if keep.Some? && keep.value in sessions {
        kept := Some(sessions[keep.value]);
      }
      sessions, setup := map[], map[];
      if kept.Some? {
        sessions := map[keep.value := kept.value];
      }
      LessOk(old(Now()), Now());
    }

    /** Replaces the password. `saved` is whether the new one could be written, and `stored` whether the
        sessions could; a failure of the second is found after the change has been made. */
    method SetPassword(newPassword: string, current: string, presented: Option<Secret>,
                       asked: Time, counted: Time, now: Time, saved: bool, stored: bool)
      returns (r: Change)
      requires Valid()
      modifies this
      ensures Valid() && codes.Keys <= old(codes).Keys
      ensures r.BadPolicy? <==> !(10 <= |newPassword| <= 256)
      ensures r.SameAsInitial? <==> 10 <= |newPassword| <= 256 && newPassword == initial
      ensures r.Changed? ==> old(password).None? || (current != "" && old(IsPassword(current)))
      ensures password == old(password)
                || (password == Some(newPassword) && 10 <= |newPassword| <= 256 && newPassword != initial)
      ensures r.Changed? ==> password == Some(newPassword)
      // whoever asked is the only one left
      ensures r.Changed? ==> setup == map[] && |sessions| <= 1
      ensures r.Changed? && r.token.None? ==>
                sessions == (if presented.Some? && presented.value in Live(old(sessions), now)
                             then map[presented.value := old(sessions)[presented.value]] else map[])
      ensures r.Changed? && r.token.Some? ==>
                presented.Some? && presented.value in Live(old(setup), now)
                && r.token.value !in old(issued) && sessions == map[r.token.value := now + 12 * 3600 * 1_000_000_000]
      ensures issued == if r.Changed? && r.token.Some?
                then old(issued)[r.token.value := Issue(Session(None), now + 12 * 3600 * 1_000_000_000)]
                else old(issued)
      ensures r.BadPolicy? || r.SameAsInitial? || r.NotAllowed? || !saved ==>
                password == old(password) && sessions == old(sessions) && setup == old(setup) && codes == old(codes)
      // a failure to write the sessions comes after the change
      ensures r.Changed? ==> saved && stored
      ensures r.NotSaved? && saved ==>
                !stored && password == Some(newPassword) && setup == map[]
                && |sessions| <= 1 && forall k :: k in sessions ==> presented == Some(k)
    {
      hide Ok;
      if !ValidPassword(newPassword) {
        return BadPolicy;
      }
      if newPassword == initial {
        return SameAsInitial;
      }
      var check := RequireCurrent(current, asked, counted);
      if !check.Right? {
        return NotAllowed(check);
      }
      if !saved {
        return NotSaved;
      }
      r := TakePassword(newPassword, presented, now, stored);
    }

    /** The new password is on disk: it takes over, and everybody but whoever asked is signed out. */
    method TakePassword(newPassword: string, presented: Option<Secret>, now: Time, stored: bool) returns (r: Change)
      requires Valid()
      modifies `codes, `sessions, `setup, `password, `next, `issued
      ensures Valid() && codes == Live(old(codes), now) && password == Some(newPassword)
      ensures r == NotSaved || r.Changed?
      ensures setup == map[] && |sessions| <= 1 && (r.Changed? <==> stored)
      ensures r == NotSaved ==> forall k :: k in sessions ==> presented == Some(k)
      ensures r.Changed? && r.token.None? ==>
                sessions == (if presented.Some? && presented.value in Live(old(sessions), now)
                             then map[presented.value := old(sessions)[presented.value]] else map[])
      ensures r.Changed? && r.token.Some? ==>
                presented.Some? && presented.value in Live(old(setup), now)
                && r.token.value !in old(issued) && sessions == map[r.token.value := now + 12 * 3600 * 1_000_000_000]
      ensures issued == if r.Changed? && r.token.Some?
                        then old(issued)[r.token.value := Issue(Session(None), now + 12 * 3600 * 1_000_000_000)]
                        else old(issued)
    {
      hide Ok, Live, MakesRoom;
      Expire(now);
      var fromSetup := presented.Some? && presented.value in setup;
      ghost var held := Now();
      setup := map[];
      password := Some(newPassword);
      LessOk(held, Now());
      if !fromSetup {
        RevokeExcept(presented);
        return if stored then Changed(None) else NotSaved;
      }
      RevokeExcept(None);
      if !stored {
        return NotSaved;
      }
      ghost var kept;
      var token;
      token, kept := IssueSession(now, None);
      AllGone(kept);
      return Changed(Some(token));
    }

    /** Puts the password back to the initial one and signs out every session. `removed` is whether the record of the
        password could be removed, and `stored` whether the sessions could be written, after the change. */
    method ClearPassword(current: string, asked: Time, counted: Time, removed: bool, stored: bool) returns (r: Change)
      requires Valid()
      modifies `password, `sessions, `setup, `failed
      ensures Valid() && (r.Changed? || r.NotSaved? || r.NotAllowed?)
      ensures r.Changed? || r.NotSaved? ==> old(password).None? || (current != "" && old(IsPassword(current)))
      ensures r.Changed? ==> removed && stored
      ensures r.NotSaved? ==> !removed || !stored
      ensures (r.Changed? || r.NotSaved?) && removed ==> password.None? && sessions == map[] && setup == map[]
      ensures r.NotAllowed? || !removed ==>
                password == old(password) && sessions == old(sessions) && setup == old(setup)
    {
      hide Ok;
      var check := RequireCurrent(current, asked, counted);
      if !check.Right? {
        return NotAllowed(check);
      }
      if !removed {
        return NotSaved;
      }
      setup := map[];
      password := None;
      LessOk(old(Now()), Now());
      RevokeExcept(None);
      return if stored then Changed(None) else NotSaved;
    }
  }
}
