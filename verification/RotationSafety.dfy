/** What every run of several processes sharing a sign-in keeps. */
module RotationSafety {
  import opened Wrappers
  import opened Credentials
  import opened Rotation

  // ---- the access tokens issued -----------------------------------------------------

  /** The access tokens the sign-in has had, in order. */
  function Issued(s: State): (r: seq<Token>)
    ensures |r| == |s.exchanges| + 1
  {
    [s.first] + seq(|s.exchanges|, k requires 0 <= k < |s.exchanges| => s.exchanges[k].access)
  }

  ghost predicate Chained(s: State) {
    && (forall i, j :: 0 <= i < j < |Issued(s)| ==> Issued(s)[i] < Issued(s)[j])
    && (forall k :: 0 <= k < |s.exchanges| ==> s.exchanges[k].replaced == Issued(s)[k])
  }

  function Newest(s: State): Token {
    Issued(s)[|s.exchanges|]
  }

  // ---- the invariant ------------------------------------------------------------------

  /** The service has granted an exchange that is not on disk yet. */
  ghost predicate InFlight(s: State) {
    && s.lock.Some? && s.pcs(s.lock.value).Answered? && Success(s.pcs(s.lock.value).reply)
  }

  ghost predicate ServerOk(s: State) {
    && s.latest < s.next && Newest(s) < s.next && Chained(s)
    && forall r :: r in s.rotated ==> r < s.next && r != s.latest
  }

  ghost predicate FileOk(s: State) {
    && (!InFlight(s) ==> s.file.refresh in {0, s.latest})
    && (SignedIn(s.file) ==> s.file.access in Issued(s))
    && (SignedIn(s.file) && !InFlight(s) ==> s.file.access == Newest(s))
  }

  ghost predicate HandedOk(s: State) {
    forall h :: h in s.handed ==> h != 0 && h in Issued(s) && (SignedIn(s.file) ==> h <= s.file.access)
  }

  ghost predicate AnswersOk(s: State) {
    forall a :: a in s.answers && a.call.Refreshes? ==>
      && a.token in Issued(s) && a.call.rejected < a.token
      && (a.call.rejected == 0 || a.call.rejected in Issued(s))
  }

  /** What a process remembers is no newer than the file. */
  ghost predicate Behind(s: State, p: Process) {
    && (SignedIn(s.recs(p)) ==> s.recs(p).access in Issued(s))
    && (SignedIn(s.file) ==> SignedIn(s.recs(p)) && s.recs(p).access <= s.file.access)
  }

  ghost predicate Past(r: Record, rejected: Token) {
    SignedIn(r) ==> rejected < r.access
  }

  ghost predicate CallOk(s: State, call: Call) {
    call.Refreshes? ==> call.rejected == 0 || call.rejected in s.handed
  }

  function FloorOf(call: Call): Token {
    if call.Refreshes? then call.rejected else 0
  }

  ghost predicate Presenting(s: State, t: Thread, presented: Token) {
    s.recs(t.process) == s.file && presented == s.file.refresh
  }

  /** A grant in flight is the newest token; the refresh token beside it, if any, is the latest. */
  ghost predicate GrantOk(s: State, presented: Token, reply: Reply) {
    && Success(reply) && s.exchanges != [] && reply.access == Newest(s)
    && s.file.access == s.exchanges[|s.exchanges| - 1].replaced
    && s.latest == (if reply.refresh != 0 then reply.refresh else presented)
  }

  ghost predicate ThreadOk(s: State, t: Thread) {
    match s.pcs(t)
    case Idle => true
    case Wanting(call) => CallOk(s, call)
    case Holding(call) => CallOk(s, call)
    case Sending(call, presented) =>
      CallOk(s, call) && Presenting(s, t, presented) && presented != 0 && presented == s.latest && Replaceable(s, call)
    case Answered(call, presented, reply) =>
      && CallOk(s, call) && Presenting(s, t, presented) && presented != 0
      && (if Success(reply) then GrantOk(s, presented, reply) && Replaceable(s, call) else presented == s.latest)
    case Leaving(call) => CallOk(s, call) && Past(s.file, FloorOf(call)) && Past(s.recs(t.process), FloorOf(call))
    case GivingUp(call, _) => CallOk(s, call)
    case Revoking(presented) => Presenting(s, t, presented) && SignedIn(s.file)
  }

  /** A refresh on behalf of a refused token replaces that token or none. */
  ghost predicate Replaceable(s: State, call: Call) {
    call.Refreshes? ==> s.file.access in {0, call.rejected}
  }

  ghost predicate LockOk(s: State) {
    forall t :: Holds(s.pcs(t)) <==> s.lock == Some(t)
  }

  ghost predicate Inv(s: State) {
    && ServerOk(s) && FileOk(s) && HandedOk(s) && AnswersOk(s) && LockOk(s)
    && (forall p :: Behind(s, p))
    && (forall t :: ThreadOk(s, t))
  }

  lemma {:induction false} StartsOk(s: State)
    requires Start(s)
    ensures Inv(s)
  {
    assert Issued(s) == [s.first];
  }

  // ---- steps that leave the file and the service alone -----------------------------------

  ghost predicate SameWorld(s: State, r: State) {
    && r.file == s.file && r.latest == s.latest && r.rotated == s.rotated && r.next == s.next
    && r.first == s.first && r.exchanges == s.exchanges
  }

  lemma {:induction false} WorldOk(s: State, r: State)
    requires ServerOk(s) && FileOk(s) && SameWorld(s, r) && (InFlight(r) <==> InFlight(s))
    ensures ServerOk(r) && FileOk(r) && Issued(r) == Issued(s)
  {
    assert Issued(r) == Issued(s);
  }

  /** A process either remembers what it did or what is on disk. */
  ghost predicate Remembers(s: State, r: State, p: Process) {
    r.recs(p) == s.recs(p) || r.recs(p) == s.file
  }

  /** What holds for a thread goes on holding while the file and the service stay as they are. */
  lemma {:induction false} ThreadStays(s: State, r: State, u: Thread)
    requires ThreadOk(s, u) && r.pcs(u) == s.pcs(u) && SameWorld(s, r) && s.handed <= r.handed
               && Remembers(s, r, u.process)
    ensures ThreadOk(r, u)
  {
    assert Issued(r) == Issued(s);
  }

  lemma {:induction false} BehindStays(s: State, r: State, p: Process)
    requires Behind(s, p) && FileOk(s) && SameWorld(s, r) && Remembers(s, r, p)
    ensures Behind(r, p)
  {
    assert Issued(r) == Issued(s);
  }

  /** One thread moves, and nothing happens to the file or the service. */
  lemma {:induction false} QuietStepOk(s: State, r: State, t: Thread)
    requires Inv(s) && SameWorld(s, r) && s.handed <= r.handed && (InFlight(r) <==> InFlight(s))
    requires forall u :: u != t ==> r.pcs(u) == s.pcs(u)
    requires forall p :: Remembers(s, r, p)
    requires ThreadOk(r, t) && LockOk(r) && HandedOk(r) && AnswersOk(r)
    ensures Inv(r)
  {
    WorldOk(s, r);
    hide ServerOk, FileOk, HandedOk, AnswersOk, LockOk, ThreadOk, Behind, Remembers, SameWorld;
    forall u ensures ThreadOk(r, u) {
      if u != t {
        ThreadStays(s, r, u);
      }
    }
    forall p ensures Behind(r, p) {
      BehindStays(s, r, p);
    }
  }

  lemma {:induction false} HandedStays(s: State, r: State)
    requires HandedOk(s) && AnswersOk(s) && SameWorld(s, r) && r.handed == s.handed && r.answers == s.answers
    ensures HandedOk(r) && AnswersOk(r)
  {
    assert Issued(r) == Issued(s);
  }

  /** A thread that does not hold the lock moves on to where it still does not. */
  lemma {:induction false} MovesOk(s: State, t: Thread, pc: Pc)
    requires Inv(s) && s.lock != Some(t) && !Holds(pc)
    requires ThreadOk(Goes(s, t, pc), t)
    ensures Inv(Goes(s, t, pc))
  {
    hide ServerOk, FileOk, HandedOk, AnswersOk, ThreadOk, Behind;
    var r := Goes(s, t, pc);
    HandedStays(s, r);
    QuietStepOk(s, r, t);
  }

  lemma {:induction false} OpensOk(s: State, p: Process)
    requires Inv(s)
    ensures Inv(Has(s, p, s.file))
  {
    hide ServerOk, FileOk, HandedOk, AnswersOk, ThreadOk, Behind;
    var r, t := Has(s, p, s.file), Thread(p, 0);
    HandedStays(s, r);
    ThreadStays(s, r, t);
    QuietStepOk(s, r, t);
  }

  lemma {:induction false} LocksOk(s: State, t: Thread)
    requires Inv(s) && s.pcs(t).Wanting? && s.lock == None
    ensures Inv(Goes(s, t, Holding(s.pcs(t).call)).(lock := Some(t)))
  {
    var r := Goes(s, t, Holding(s.pcs(t).call)).(lock := Some(t));
    assert ThreadOk(s, t);
    assert ThreadOk(r, t);
    hide ServerOk, FileOk, HandedOk, AnswersOk, ThreadOk, Behind;
    HandedStays(s, r);
    QuietStepOk(s, r, t);
  }

  /** What a process remembers may be handed out. */
  lemma {:induction false} HandsOutFits(s: State, r: State, t: Thread, call: Call)
    requires HandedOk(s) && AnswersOk(s) && FileOk(s) && Behind(s, t.process) && s.recs(t.process).access != 0
    requires call.Refreshes? ==> CallOk(s, call) && call.rejected < s.recs(t.process).access
    requires r == HandsOut(s, t, call, s.recs(t.process).access)
    ensures HandedOk(r) && AnswersOk(r)
  {
    assert Issued(r) == Issued(s);
  }

  /** Handing out what a process remembers. */
  lemma {:induction false} HandsOutOk(s: State, t: Thread, call: Call)
    requires Inv(s) && s.lock != Some(t)
    requires s.recs(t.process).access != 0
    requires call.Refreshes? ==> CallOk(s, call) && call.rejected < s.recs(t.process).access
    ensures Inv(HandsOut(s, t, call, s.recs(t.process).access))
  {
    hide ServerOk, FileOk, HandedOk, AnswersOk, Behind;
    var r := HandsOut(s, t, call, s.recs(t.process).access);
    HandsOutFits(s, r, t, call);
    QuietStepOk(s, r, t);
  }

  // ---- steps of the one that holds the lock ------------------------------------------------

  /** The file after a step: the same tokens, none at all, or newer than any that was handed out. */
  ghost predicate Moves(s: State, stored: Record) {
    || !SignedIn(stored)
    || (stored.access == s.file.access && stored.refresh == s.file.refresh)
    || (stored.access == Newest(s) > s.file.access)
  }

  /** Leaving with the same record in memory and on disk. */
  lemma {:induction false} ReleasesOk(s: State, t: Thread, stored: Record, pc: Pc)
    requires Inv(s) && s.lock == Some(t) && !Holds(pc)
    requires Moves(s, stored)
    requires stored.refresh in {0, s.latest} && (SignedIn(stored) ==> stored.access == Newest(s))
    requires pc.Wanting? || pc.Leaving? || pc.GivingUp? ==> CallOk(s, pc.call)
    requires pc.Leaving? ==> Past(stored, FloorOf(pc.call))
    requires SignedIn(stored) ==> SignedIn(s.file)
    ensures Inv(Releases(s, t, stored, stored, pc))
  {
    var r := Releases(s, t, stored, stored, pc);
    assert Issued(r) == Issued(s);
    assert !InFlight(r);
    NewestIsLast(s);
    forall u ensures ThreadOk(r, u) {
      OthersOk(s, t, stored, pc, u);
    }
    forall p ensures Behind(r, p) {
      assert Behind(s, p);
    }
  }

  lemma {:induction false} NewestIsLast(s: State)
    requires ServerOk(s)
    ensures forall x :: x in Issued(s) ==> x <= Newest(s)
  {
  }

  lemma {:induction false} OthersOk(s: State, t: Thread, stored: Record, pc: Pc, u: Thread)
    requires Inv(s) && s.lock == Some(t) && !Holds(pc)
    requires Moves(s, stored)
    requires pc.Wanting? || pc.Leaving? || pc.GivingUp? ==> CallOk(s, pc.call)
    requires pc.Leaving? ==> Past(stored, FloorOf(pc.call))
    requires SignedIn(stored) ==> SignedIn(s.file)
    ensures ThreadOk(Releases(s, t, stored, stored, pc), u)
  {
    assert ThreadOk(s, u);
    assert u != t ==> !Holds(s.pcs(u));
  }

  /** The holder of the lock has read the file and goes on to the service. */
  lemma {:induction false} ReadsOnOk(s: State, t: Thread, pc: Pc)
    requires Inv(s) && s.lock == Some(t) && s.pcs(t).Holding? && (pc.Sending? || pc.Revoking?)
    requires ThreadOk(Goes(Has(s, t.process, s.file), t, pc), t)
    ensures Inv(Goes(Has(s, t.process, s.file), t, pc))
  {
    hide ServerOk, FileOk, HandedOk, AnswersOk, ThreadOk, Behind;
    var r := Goes(Has(s, t.process, s.file), t, pc);
    HandedStays(s, r);
    QuietStepOk(s, r, t);
  }

  /** What the file holds when the lock has just been taken. */
  lemma {:induction false} HolderFinds(s: State, t: Thread, call: Call)
    requires Inv(s) && s.lock == Some(t) && s.pcs(t) == Holding(call)
    ensures s.file.refresh in {0, s.latest} && (SignedIn(s.file) ==> s.file.access == Newest(s)) && CallOk(s, call)
    ensures SignedIn(s.file) && call.Refreshes? ==> call.rejected <= s.file.access
  {
    hide ServerOk, AnswersOk, Behind, LockOk;
    assert ThreadOk(s, t) && !InFlight(s);
    if call.Refreshes? && call.rejected != 0 {
      assert call.rejected in s.handed;
    }
  }

  /** What a reader of the file finds, as long as it does not go on to the service. */
  lemma {:induction false} DecidedOk(s: State, t: Thread, call: Call, now: int)
    requires Inv(s) && s.lock == Some(t) && s.pcs(t) == Holding(call) && (call.Access? || call.Refreshes?)
    ensures Inv(Reading(s, t, call, now))
  {
    hide Inv, Newest;
    HolderFinds(s, t, call);
    var want := WantOf(call, now);
    match Decide(s.file, want)
    case Settled => ReleasesOk(s, t, s.file, Leaving(call));
    case NoRefreshToken => ReleasesOk(s, t, AfterRead(s.file, want), GivingUp(call, true));
    case Exchange(presented) => ReadsOnOk(s, t, Sending(call, presented));
  }

  lemma {:induction false} RecordsOk(s: State, t: Thread, code: string, message: string)
    requires Inv(s) && s.pcs(t) == Holding(Records(code, message)) && s.lock == Some(t)
    ensures Inv(Reading(s, t, s.pcs(t).call, 0))
  {
    ReleasesOk(s, t, s.file.(code := code, message := Credentials.Cut(message)), Idle);
  }

  lemma {:induction false} SigningOutOk(s: State, t: Thread)
    requires Inv(s) && s.pcs(t) == Holding(SignsOut) && s.lock == Some(t)
    ensures Inv(Reading(s, t, SignsOut, 0))
  {
    hide ServerOk, HandedOk, AnswersOk, Behind, LockOk;
    if !SignedIn(s.file) {
      ReleasesOk(s, t, s.file, Idle);
    } else {
      ReadsOnOk(s, t, Revoking(s.file.refresh));
    }
  }

  lemma {:induction false} ReadsOk(s: State, t: Thread, now: int)
    requires Inv(s) && s.pcs(t).Holding?
    ensures Inv(Reading(s, t, s.pcs(t).call, now))
  {
    HolderIs(s, t);
    hide Inv;
    match s.pcs(t).call
    case Records(code, message) => RecordsOk(s, t, code, message);
    case SignsOut => SigningOutOk(s, t);
    case _ => DecidedOk(s, t, s.pcs(t).call, now);
  }

  lemma {:induction false} HolderIs(s: State, t: Thread)
    requires Inv(s)
    ensures Holds(s.pcs(t)) <==> s.lock == Some(t)
  {
  }

  lemma {:induction false} MoreIssued(s: State, r: State, x: Exchanged)
    requires r.first == s.first && r.exchanges == s.exchanges + [x]
    ensures Issued(r) == Issued(s) + [x.access] && Newest(r) == x.access
  {
  }

  /** Nobody but the one that asked can tell that the service has granted. */
  lemma {:induction false} GrantUnseen(s: State, r: State, t: Thread, u: Thread)
    requires ThreadOk(s, u) && u != t && !Presents(s.pcs(u))
    requires r.pcs(u) == s.pcs(u) && r.file == s.file && r.recs(u.process) == s.recs(u.process) && r.handed == s.handed
    ensures ThreadOk(r, u)
  {
  }

  /** The service grants: the new tokens are the newest, and the one presented is spent if it was replaced. */
  lemma {:induction false} GrantsOk(s: State, t: Thread, reply: Reply)
    requires Inv(s) && s.pcs(t).Sending? && MayAnswer(s, s.pcs(t).presented, reply) && Success(reply)
    ensures Inv(Answering(s, t, s.pcs(t).call, s.pcs(t).presented, reply))
  {
    var call, presented := s.pcs(t).call, s.pcs(t).presented;
    var r := Answering(s, t, call, presented, reply);
    assert ThreadOk(s, t) && Holds(s.pcs(t));
    assert !InFlight(s) && InFlight(r);
    MoreIssued(s, r, Exchanged(s.file.access, reply.access));
    GrantChains(s, r);
    forall u ensures ThreadOk(r, u) {
      if u != t {
        assert ThreadOk(s, u);
        GrantUnseen(s, r, t, u);
      }
    }
    forall p ensures Behind(r, p) {
      assert Behind(s, p);
    }
  }

  lemma {:induction false} RisesBy(was: seq<Token>, x: Token)
    requires (forall i, j :: 0 <= i < j < |was| ==> was[i] < was[j]) && was != [] && was[|was| - 1] < x
    ensures forall i, j :: 0 <= i < j < |was + [x]| ==> (was + [x])[i] < (was + [x])[j]
  {
  }

  lemma {:induction false} GrantChains(s: State, r: State)
    requires Chained(s) && r.first == s.first
    requires |r.exchanges| == |s.exchanges| + 1 && r.exchanges[..|s.exchanges|] == s.exchanges
    requires r.exchanges[|s.exchanges|].replaced == Newest(s) < r.exchanges[|s.exchanges|].access
    ensures Chained(r)
  {
    var n, x := |s.exchanges|, r.exchanges[|s.exchanges|];
    MoreIssued(s, r, x);
    var was, now := Issued(s), Issued(r);
    hide Issued, Newest;
    assert now == was + [x.access] && was[n] == Newest(s);
    RisesBy(was, x.access);
    assert now[..n + 1] == was;
    forall k | 0 <= k < |r.exchanges| ensures r.exchanges[k].replaced == now[k] {
      if k < n {
        assert r.exchanges[..n][k] == r.exchanges[k];
      }
    }
  }

  lemma {:induction false} AnswersBackOk(s: State, t: Thread, reply: Reply)
    requires Inv(s) && s.pcs(t).Sending? && !Success(reply)
    ensures Inv(Goes(s, t, Answered(s.pcs(t).call, s.pcs(t).presented, reply)))
  {
    var r := Goes(s, t, Answered(s.pcs(t).call, s.pcs(t).presented, reply));
    assert Issued(r) == Issued(s);
    assert Holds(s.pcs(t));
    assert !InFlight(r) && !InFlight(s);
    forall u ensures ThreadOk(r, u) {
      assert ThreadOk(s, u);
    }
    forall p ensures Behind(r, p) {
      assert Behind(s, p);
    }
  }

  lemma {:induction false} ExchangesOk(s: State, t: Thread, reply: Reply)
    requires Inv(s) && s.pcs(t).Sending? && MayAnswer(s, s.pcs(t).presented, reply)
    ensures Inv(Do(s, Exchanges(t, reply)))
  {
    hide Inv;
    if Success(reply) {
      GrantsOk(s, t, reply);
    } else {
      AnswersBackOk(s, t, reply);
    }
  }

  lemma {:induction false} TakesOk(s: State, t: Thread, now: int)
    requires Inv(s) && s.pcs(t).Answered?
    ensures Inv(Taking(s, t, s.pcs(t).call, s.pcs(t).presented, s.pcs(t).reply, now))
  {
    HolderIs(s, t);
    if Success(s.pcs(t).reply) {
      TakesGrantOk(s, t, now);
    } else {
      TakesRefusalOk(s, t, now);
    }
  }

  lemma {:induction false} TakesGrantOk(s: State, t: Thread, now: int)
    requires Inv(s) && s.lock == Some(t) && s.pcs(t).Answered? && Success(s.pcs(t).reply)
    ensures Inv(Taking(s, t, s.pcs(t).call, s.pcs(t).presented, s.pcs(t).reply, now))
  {
    var call, presented, reply := s.pcs(t).call, s.pcs(t).presented, s.pcs(t).reply;
    var taken := AfterReply(s.recs(t.process), s.file, presented, reply, now);
    assert ThreadOk(s, t);
    hide EndsTheSignIn;
    GrantIsNewer(s, t);
    ReleasesOk(s, t, taken.stored, Leaving(call));
  }

  lemma {:induction false} TakesRefusalOk(s: State, t: Thread, now: int)
    requires Inv(s) && s.lock == Some(t) && s.pcs(t).Answered? && !Success(s.pcs(t).reply)
    ensures Inv(Taking(s, t, s.pcs(t).call, s.pcs(t).presented, s.pcs(t).reply, now))
  {
    var call, presented, reply := s.pcs(t).call, s.pcs(t).presented, s.pcs(t).reply;
    var taken := AfterReply(s.recs(t.process), s.file, presented, reply, now);
    assert ThreadOk(s, t);
    hide EndsTheSignIn;
    assert taken.rec == taken.stored && taken.outcome.Failed?;
    ReleasesOk(s, t, taken.stored, GivingUp(call, taken.outcome.signInAgain));
  }

  /** A grant is newer than what it replaces and than anything handed out. */
  lemma {:induction false} GrantIsNewer(s: State, t: Thread)
    requires Inv(s) && s.pcs(t).Answered? && Success(s.pcs(t).reply)
    ensures s.pcs(t).reply.access == Newest(s) > s.file.access
    ensures FloorOf(s.pcs(t).call) < Newest(s)
  {
    var call, last := s.pcs(t).call, |s.exchanges| - 1;
    assert ThreadOk(s, t);
    assert s.exchanges[last].replaced == Issued(s)[last] < Issued(s)[last + 1];
  }

  lemma {:induction false} RevokesOk(s: State, t: Thread, confirmed: bool)
    requires Inv(s) && s.pcs(t).Revoking?
    ensures Inv(Do(s, Revokes(t, confirmed)))
  {
    var rec := Cleared(s.recs(t.process), "", "");
    assert Holds(s.pcs(t));
    ReleasesOk(s, t, rec, Idle);
    StillOk(Releases(s, t, rec, rec, Idle), Do(s, Revokes(t, confirmed)));
  }

  /** Whether the service still accepts the sign-in matters to nothing that is kept. */
  lemma {:induction false} StillOk(s: State, r: State)
    requires Inv(s) && r == s.(alive := r.alive)
    ensures Inv(r)
  {
    assert Issued(r) == Issued(s);
    forall u ensures ThreadOk(r, u) {
      assert ThreadOk(s, u);
    }
    forall p ensures Behind(r, p) {
      assert Behind(s, p);
    }
  }

  /** A caller whose refresh went through is handed what its process now remembers. */
  lemma {:induction false} LeavesOk(s: State, t: Thread)
    requires Inv(s) && s.lock != Some(t) && s.pcs(t).Leaving? && SignedIn(s.recs(t.process))
    ensures Inv(HandsOut(s, t, s.pcs(t).call, s.recs(t.process).access))
  {
    assert ThreadOk(s, t);
    HandsOutOk(s, t, s.pcs(t).call);
  }

  lemma {:induction false} ReturnsOk(s: State, t: Thread, now: int)
    requires Inv(s) && (s.pcs(t).Leaving? || s.pcs(t).GivingUp?)
    ensures Inv(Returning(s, t, s.pcs(t), now))
  {
    var pc, rec := s.pcs(t), s.recs(t.process);
    HolderIs(s, t);
    hide Inv, ThreadOk;
    if pc.Leaving? && pc.call.Access? && Usable(rec) {
      LeavesOk(s, t);
    } else if pc.Leaving? && pc.call.Refreshes? && SignedIn(rec) {
      LeavesOk(s, t);
    } else if pc.GivingUp? && pc.call.Access? && !pc.signInAgain && rec.access != 0 && now < rec.expiresAt {
      HandsOutOk(s, t, pc.call);
    } else {
      GivesUpOk(s, t);
    }
  }

  lemma {:induction false} GivesUpOk(s: State, t: Thread)
    requires Inv(s) && s.lock != Some(t)
    ensures Inv(Goes(s, t, Idle))
  {
    MovesOk(s, t, Idle);
  }

  lemma {:induction false} AsksOk(s: State, t: Thread, now: int)
    requires Inv(s) && s.pcs(t).Idle?
    ensures Inv(Do(s, CallsAccess(t, now)))
  {
    assert !Holds(s.pcs(t));
    if Usable(s.recs(t.process)) {
      if Expiring(s.recs(t.process), now) {
        MovesOk(s, t, Wanting(Access));
      } else {
        HandsOutOk(s, t, Access);
      }
    }
  }

  lemma {:induction false} StepOk(s: State, a: Action)
    requires Inv(s) && Enabled(s, a)
    ensures Inv(Do(s, a))
  {
    hide Inv;
    match a
    case Opens(p) => OpensOk(s, p);
    case CallsAccess(t, now) => AsksOk(s, t, now);
    case Calls(t, call) => CallsOk(s, t, call);
    case Locks(t) => LocksOk(s, t);
    case Reads(t, now) => ReadsOk(s, t, now);
    case Exchanges(t, reply) => ExchangesOk(s, t, reply);
    case Takes(t, now) => TakesOk(s, t, now);
    case Revokes(t, confirmed) => RevokesOk(s, t, confirmed);
    case Returns(t, now) => ReturnsOk(s, t, now);
    case Invalidates => StillOk(s, Do(s, a));
  }

  lemma {:induction false} CallsOk(s: State, t: Thread, call: Call)
    requires Inv(s) && Enabled(s, Calls(t, call))
    ensures Inv(Do(s, Calls(t, call)))
  {
    assert !Holds(s.pcs(t));
    if !(call.Refreshes? && !SignedIn(s.recs(t.process))) {
      MovesOk(s, t, Wanting(call));
    }
  }

  lemma {:induction false} RunOk(states: seq<State>, actions: seq<Action>, n: nat)
    requires Run(states, actions) && n < |states|
    ensures Inv(states[n])
  {
    hide Inv, Do, Enabled;
    if n == 0 {
      StartsOk(states[0]);
    } else {
      RunOk(states, actions, n - 1);
      StepOk(states[n - 1], actions[n - 1]);
    }
  }

  // ---- what that means ------------------------------------------------------------------------

  /** Whenever no process is in the middle of a refresh, the refresh token on disk is the service's latest or there is
      none. */
  lemma {:induction false} FileHoldsTheLatest(states: seq<State>, actions: seq<Action>, n: nat)
    requires Run(states, actions) && n < |states| && states[n].lock == None
    ensures states[n].file.refresh in {0, states[n].latest}
  {
    RunOk(states, actions, n);
  }

  /** No refresh token is presented after it was replaced. */
  lemma {:induction false} NeverPresentsARotatedToken(states: seq<State>, actions: seq<Action>, n: nat, t: Thread)
    requires Run(states, actions) && n < |states|
    requires states[n].pcs(t).Sending? || (states[n].pcs(t).Revoking? && states[n].pcs(t).presented != 0)
    ensures states[n].pcs(t).presented == states[n].latest
    ensures states[n].pcs(t).presented !in states[n].rotated
  {
    RunOk(states, actions, n);
    assert ThreadOk(states[n], t);
    assert Holds(states[n].pcs(t));
  }

  /** At most one process talks to the service or writes the file at a time. */
  lemma {:induction false} OneAtATime(states: seq<State>, actions: seq<Action>, n: nat, t: Thread, u: Thread)
    requires Run(states, actions) && n < |states| && Holds(states[n].pcs(t)) && Holds(states[n].pcs(u))
    ensures t == u
  {
    RunOk(states, actions, n);
  }

  /** A refusal never finds another writer's token on disk: without a sign-in nobody writes beside the holder of the
      lock. */
  lemma {:induction false} NobodyElseWrote(states: seq<State>, actions: seq<Action>, n: nat, t: Thread)
    requires Run(states, actions) && n < |states| && states[n].pcs(t).Answered?
    ensures states[n].file.refresh == states[n].pcs(t).presented
  {
    RunOk(states, actions, n);
    assert ThreadOk(states[n], t);
  }

  /** However many callers were refused the same access token, it is exchanged at most once. */
  lemma {:induction false} ReplacedOnce(states: seq<State>, actions: seq<Action>, n: nat, j: nat, k: nat)
    requires Run(states, actions) && n < |states|
    requires j < |states[n].exchanges| && k < |states[n].exchanges|
    requires states[n].exchanges[j].replaced == states[n].exchanges[k].replaced
    ensures j == k
  {
    RunOk(states, actions, n);
  }

  /** A caller that was refused an access token and got another got a newer one, and exactly one exchange replaced the
      refused one. */
  lemma {:induction false} RefusedTokenIsReplacedOnce(states: seq<State>, actions: seq<Action>, n: nat, a: Answer)
    requires Run(states, actions) && n < |states|
    requires a in states[n].answers && a.call.Refreshes? && a.call.rejected != 0
    ensures a.call.rejected < a.token
    ensures exists k :: 0 <= k < |states[n].exchanges| && states[n].exchanges[k].replaced == a.call.rejected
              && forall j :: 0 <= j < |states[n].exchanges| && states[n].exchanges[j].replaced == a.call.rejected ==>
                   j == k
  {
    RunOk(states, actions, n);
    var s := states[n];
    var i :| 0 <= i < |Issued(s)| && Issued(s)[i] == a.call.rejected;
    var j :| 0 <= j < |Issued(s)| && Issued(s)[j] == a.token;
    assert i < j;
    assert s.exchanges[i].replaced == a.call.rejected;
    forall k | 0 <= k < |s.exchanges| && s.exchanges[k].replaced == a.call.rejected ensures k == i {
      assert Issued(s)[k] == Issued(s)[i];
    }
  }

  // ---- what a token that is handed out is worth ---------------------------------------------------

  /** The step answers `t` with a token. */
  ghost predicate HandsTo(s: State, a: Action, token: Token) {
    Enabled(s, a) && exists call :: Do(s, a).answers == s.answers + [Answer(call, token)]
  }

  lemma {:induction false} OneAnswerMore(s: State, t: Thread, call: Call, token: Token)
    ensures HandsOut(s, t, call, token).answers == s.answers + [Answer(call, token)]
    ensures s.answers + [Answer(call, token)] != s.answers
  {
    assert |s.answers + [Answer(call, token)]| == |s.answers| + 1;
  }

  /** Asked for a token, a process hands out the one it remembers exactly when the plan is granted and the token is good
      for another five minutes. */
  lemma {:induction false} HandedAtOnceIff(s: State, t: Thread, now: int, token: Token)
    requires s.pcs(t).Idle?
    ensures HandsTo(s, CallsAccess(t, now), token) <==>
              var r := s.recs(t.process); r.granted && r.access == token != 0 && now + 300 <= r.expiresAt
    ensures Do(s, CallsAccess(t, now)).pcs(t).Wanting? <==>
              var r := s.recs(t.process);
              r.granted && (r.access != 0 || r.refresh != 0) && (r.access == 0 || now + 300 > r.expiresAt)
  {
    var r := s.recs(t.process);
    OneAnswerMore(s, t, Access, r.access);
    if Usable(r) && !Expiring(r, now) {
      assert Do(s, CallsAccess(t, now)).answers == s.answers + [Answer(Access, r.access)];
      AnswersDiffer(s.answers, Access, r.access, token);
    } else {
      AnswersGrow(s.answers, token);
    }
  }

  lemma {:induction false} AnswersDiffer(was: seq<Answer>, call: Call, given: Token, token: Token)
    ensures (exists c :: was + [Answer(call, given)] == was + [Answer(c, token)]) <==> given == token
  {
    if given == token {
      assert was + [Answer(call, given)] == was + [Answer(call, token)];
    }
    if c :| was + [Answer(call, given)] == was + [Answer(c, token)] {
      assert (was + [Answer(call, given)])[|was|] == (was + [Answer(c, token)])[|was|];
    }
  }

  lemma {:induction false} AnswersGrow(was: seq<Answer>, token: Token)
    ensures forall c :: was != was + [Answer(c, token)]
  {
    forall c ensures was != was + [Answer(c, token)] {
      assert |was + [Answer(c, token)]| == |was| + 1;
    }
  }

  /** Coming back from a refresh, a caller is handed what its process now remembers exactly when: it asked for a good
      token and the plan is granted; or it reported one refused and is signed in; or the refresh failed, the sign-in has
      not ended, and the token it has is still good. */
  lemma {:induction false} HandedAfterwardsIff(s: State, t: Thread, now: int, token: Token)
    requires s.pcs(t).Leaving? || s.pcs(t).GivingUp?
    ensures HandsTo(s, Returns(t, now), token) <==>
              var r, pc := s.recs(t.process), s.pcs(t);
              r.access == token &&
              if pc.GivingUp? then pc.call == Access && !pc.signInAgain && token != 0 && now < r.expiresAt
              else if pc.call == Access then r.granted && (r.access != 0 || r.refresh != 0)
              else pc.call.Refreshes? && (r.access != 0 || r.refresh != 0)
  {
    var r, pc := s.recs(t.process), s.pcs(t);
    OneAnswerMore(s, t, pc.call, r.access);
    AnswersDiffer(s.answers, pc.call, r.access, token);
    AnswersGrow(s.answers, token);
  }

  /** In every run, a token handed out at once, or after a refresh that failed without ending the sign-in, has not
      expired; at once, not for another five minutes. */
  lemma {:induction false} NothingExpiredIsHandedOut(states: seq<State>, actions: seq<Action>, n: nat, t: Thread,
      now: int, token: Token)
    requires Run(states, actions) && n < |actions| && HandsTo(states[n], actions[n], token)
    requires actions[n] == CallsAccess(t, now) || (actions[n] == Returns(t, now) && states[n].pcs(t).GivingUp?)
    ensures var r := states[n].recs(t.process); token == r.access != 0 && now < r.expiresAt
    ensures actions[n].CallsAccess? ==> now + 300 <= states[n].recs(t.process).expiresAt
  {
    hide HandsTo, Do;
    if actions[n].CallsAccess? {
      HandedAtOnceIff(states[n], t, now, token);
    } else {
      HandedAfterwardsIff(states[n], t, now, token);
    }
  }

  /** A refresh asked for because time runs out goes to the service exactly when the stored sign-in can be renewed and
      has no token good for another five minutes. */
  lemma {:induction false} GoesToTheServiceIff(s: State, t: Thread, now: int)
    requires s.pcs(t) == Holding(Access)
    ensures Do(s, Reads(t, now)).pcs(t).Sending? <==>
              s.file.refresh != 0 && (s.file.access == 0 || now + 300 > s.file.expiresAt)
    ensures Do(s, Reads(t, now)).pcs(t).Sending? ==>
              Do(s, Reads(t, now)).pcs(t).presented == s.file.refresh && Do(s, Reads(t, now)).recs(t.process) == s.file
  {
  }
}
