/** What the service has granted, rotated away and handed out, by the steps of a run; and what a step cannot touch. */
module Issued {
  import opened Wrappers
  import opened Credentials
  import opened Rotation

  // ---- grants and rotations ---------------------------------------------------------------

  /** The i-th step is the service granting tokens against a refresh token. */
  ghost predicate Grants(states: seq<State>, actions: seq<Action>, i: nat, presented: Token, reply: Reply)
    requires i < |actions| && i < |states|
  {
    && actions[i].Exchanges? && actions[i].reply == reply && reply.Granted? && reply.access != 0
    && states[i].pcs(actions[i].t).Sending? && states[i].pcs(actions[i].t).presented == presented
  }

  /** The i-th step rotates the refresh token away: another one was granted against it. */
  ghost predicate RotatesAway(states: seq<State>, actions: seq<Action>, i: nat, presented: Token)
    requires i < |actions| && i < |states|
  {
    exists reply :: Grants(states, actions, i, presented, reply) && reply.refresh != 0
  }

  lemma {:induction false} RotatedStep(states: seq<State>, actions: seq<Action>, k: nat, token: Token)
    requires Run(states, actions) && k < |actions|
    ensures token in states[k + 1].rotated <==> token in states[k].rotated || RotatesAway(states, actions, k, token)
  {
    assert Enabled(states[k], actions[k]) && Do(states[k], actions[k]) == states[k + 1];
    if actions[k].Exchanges? {
      var presented := states[k].pcs(actions[k].t).presented;
      assert Grants(states, actions, k, presented, actions[k].reply) <==> Success(actions[k].reply);
    }
  }

  /** A token counts as rotated exactly when another was granted against it in an earlier step. */
  lemma {:induction false} RotatedIff(states: seq<State>, actions: seq<Action>, n: nat, token: Token)
    requires Run(states, actions) && n < |states|
    ensures token in states[n].rotated <==> exists i: nat :: i < n && RotatesAway(states, actions, i, token)
  {
    hide RotatesAway;
    if n > 0 {
      RotatedIff(states, actions, n - 1, token);
      RotatedStep(states, actions, n - 1, token);
    }
  }

  ghost predicate NoneGranted(states: seq<State>, actions: seq<Action>, from: nat, to: nat)
    requires to <= |actions| && to <= |states|
  {
    forall i: nat, token, reply :: from <= i < to && Grants(states, actions, i, token, reply) ==> reply.refresh == 0
  }

  /** The latest refresh token is the one granted last. */
  lemma {:induction false} LatestIsGrantedLast(states: seq<State>, actions: seq<Action>, n: nat, k: nat, token: Token,
      reply: Reply)
    requires Run(states, actions) && k < n <= |actions|
    requires Grants(states, actions, k, token, reply) && reply.refresh != 0 && NoneGranted(states, actions, k + 1, n)
    ensures states[n].latest == reply.refresh
    decreases n
  {
    var last := n - 1;
    assert Enabled(states[last], actions[last]) && Do(states[last], actions[last]) == states[n];
    if k < last {
      LatestIsGrantedLast(states, actions, last, k, token, reply);
      LatestStays(states, actions, last);
    }
  }

  lemma {:induction false} LatestStays(states: seq<State>, actions: seq<Action>, k: nat)
    requires Run(states, actions) && k < |actions| && NoneGranted(states, actions, k, k + 1)
    ensures states[k + 1].latest == states[k].latest
  {
    var s, a := states[k], actions[k];
    assert Enabled(s, a) && Do(s, a) == states[k + 1];
    if a.Exchanges? && Success(a.reply) {
      assert Grants(states, actions, k, s.pcs(a.t).presented, a.reply);
    }
  }

  // ---- the sign-in at the service --------------------------------------------------------------

  /** The i-th step ends the sign-in at the service: it is withdrawn, or its latest token is revoked. */
  ghost predicate Ends(states: seq<State>, actions: seq<Action>, i: nat)
    requires i < |actions| && i < |states|
  {
    || actions[i].Invalidates?
    || (actions[i].Revokes? && actions[i].confirmed && states[i].pcs(actions[i].t).Revoking?
        && states[i].pcs(actions[i].t).presented == states[i].latest)
  }

  lemma {:induction false} AliveStep(states: seq<State>, actions: seq<Action>, k: nat)
    requires Run(states, actions) && k < |actions|
    ensures states[k + 1].alive <==> states[k].alive && !Ends(states, actions, k)
  {
    assert Enabled(states[k], actions[k]) && Do(states[k], actions[k]) == states[k + 1];
  }

  /** The sign-in is good at the service as long as no step ended it. */
  lemma {:induction false} AliveIff(states: seq<State>, actions: seq<Action>, n: nat)
    requires Run(states, actions) && n < |states|
    ensures states[n].alive <==> states[0].alive && forall i: nat :: i < n ==> !Ends(states, actions, i)
  {
    hide Ends;
    if n > 0 {
      AliveIff(states, actions, n - 1);
      AliveStep(states, actions, n - 1);
    }
  }

  /** Once it has ended nothing is granted any more. */
  lemma {:induction false} NothingGrantedAfterwards(states: seq<State>, actions: seq<Action>, i: nat, n: nat)
    requires Run(states, actions) && i < n < |actions| && Ends(states, actions, i)
    ensures forall token, reply :: !Grants(states, actions, n, token, reply)
  {
    hide Ends;
    AliveIff(states, actions, n);
    assert Enabled(states[n], actions[n]);
  }

  // ---- what was handed out ------------------------------------------------------------------------

  ghost predicate WasAnswered(s: State, token: Token) {
    exists i :: 0 <= i < |s.answers| && s.answers[i].token == token
  }

  lemma {:induction false} OneMoreHanded(s: State, t: Thread, call: Call, given: Token, token: Token)
    requires token in s.handed <==> WasAnswered(s, token)
    ensures var r := HandsOut(s, t, call, given); token in r.handed <==> WasAnswered(r, token)
  {
    var r := HandsOut(s, t, call, given);
    assert r.answers[|s.answers|].token == given;
    assert forall i :: 0 <= i < |s.answers| ==> r.answers[i] == s.answers[i];
  }

  lemma {:induction false} HandedStep(s: State, a: Action, token: Token)
    requires Enabled(s, a) && (token in s.handed <==> WasAnswered(s, token))
    ensures token in Do(s, a).handed <==> WasAnswered(Do(s, a), token)
  {
    hide WasAnswered;
    SameAnswers(s, Do(s, a), token);
    match a
    case CallsAccess(t, now) => OneMoreHanded(s, t, Access, s.recs(t.process).access, token);
    case Returns(t, now) => OneMoreHanded(s, t, s.pcs(t).call, s.recs(t.process).access, token);
    case _ =>
  }

  lemma {:induction false} SameAnswers(s: State, r: State, token: Token)
    ensures r.answers == s.answers ==> (WasAnswered(r, token) <==> WasAnswered(s, token))
  {
  }

  /** The tokens handed out are those some caller was answered with. */
  lemma {:induction false} HandedIff(states: seq<State>, actions: seq<Action>, n: nat, token: Token)
    requires Run(states, actions) && n < |states|
    ensures token in states[n].handed <==> WasAnswered(states[n], token)
  {
    hide WasAnswered, Do, Enabled;
    if n == 0 {
      NothingHanded(states[0], token);
    } else {
      HandedIff(states, actions, n - 1, token);
      HandedStep(states[n - 1], actions[n - 1], token);
    }
  }

  lemma {:induction false} NothingHanded(s: State, token: Token)
    requires Start(s)
    ensures token !in s.handed && !WasAnswered(s, token)
  {
  }

  // ---- what a step cannot touch -----------------------------------------------------------------

  /** No step changes what another process has in memory, or where another thread is. */
  lemma {:induction false} OthersAreLeftAlone(s: State, a: Action, q: Process, u: Thread)
    requires Enabled(s, a)
    requires match a
             case Opens(p) => q != p
             case Invalidates => true
             case _ => a.t.process != q && a.t != u
    ensures Do(s, a).recs(q) == s.recs(q) && Do(s, a).pcs(u) == s.pcs(u)
  {
  }

  /** Whoever records an error or signs out goes on to the lock, and a caller whose token was refused exactly when its
      process still remembers a token. */
  lemma {:induction false} GoesOnIff(s: State, t: Thread, call: Call)
    requires Enabled(s, Calls(t, call))
    ensures var r, now := s.recs(t.process), Do(s, Calls(t, call)).pcs(t);
            now == if call.Refreshes? && r.access == 0 && r.refresh == 0 then Idle else Wanting(call)
  {
  }

  // ---- one caller by itself -------------------------------------------------------------------------

  /** From the k-th on, each action can be made where the ones before it lead. */
  ghost predicate Leads(s: State, actions: seq<Action>, k: nat, r: State)
    decreases |actions| - k
  {
    if k >= |actions| then r == s
    else Enabled(s, actions[k]) && Leads(Do(s, actions[k]), actions, k + 1, r)
  }

  lemma {:induction false} FirstStep(s: State, actions: seq<Action>, k: nat, r: State)
    requires k < |actions| && Enabled(s, actions[k]) && Leads(Do(s, actions[k]), actions, k + 1, r)
    ensures Leads(s, actions, k, r)
  {
    hide Enabled, Do;
  }

  lemma {:induction false} NoStep(s: State, actions: seq<Action>)
    ensures Leads(s, actions, |actions|, s)
  {
  }

  /** With nobody in the way, a caller whose process remembers a token about to expire is handed the one that the
      service grants against the token on disk, and the disk then holds what was granted. */
  lemma {:induction false} RefreshedAlone(s: State, t: Thread, now: int, reply: Reply) returns (r: State)
    requires s.pcs(t).Idle? && s.lock == None && MayAnswer(s, s.file.refresh, reply)
    requires s.recs(t.process).granted && s.recs(t.process).access != 0 && now + 300 > s.recs(t.process).expiresAt
    requires s.file.refresh != 0 && now + 300 > s.file.expiresAt && s.file.granted
    requires reply.Granted? && reply.access != 0 && reply.scope == None
    ensures var actions := [CallsAccess(t, now), Locks(t), Reads(t, now), Exchanges(t, reply), Takes(t, now),
                            Returns(t, now)];
            Leads(s, actions, 0, r)
    ensures r.answers == s.answers + [Answer(Access, reply.access)] && r.lock == None && r.pcs(t).Idle?
    ensures r.file.access == reply.access && r.recs(t.process) == r.file
    ensures r.file.refresh == if reply.refresh == 0 then s.file.refresh else reply.refresh
    ensures r.file.expiresAt == now + if reply.lifetime <= 0 then 3600 else reply.lifetime
    ensures r.exchanges == s.exchanges + [Exchanged(s.file.access, reply.access)]
  {
    hide Leads;
    var actions := [CallsAccess(t, now), Locks(t), Reads(t, now), Exchanges(t, reply), Takes(t, now), Returns(t, now)];
    var m := BecomesSender(s, t, now);
    var s1 := Do(m, Exchanges(t, reply));
    var s2 := Do(s1, Takes(t, now));
    r := Do(s2, Returns(t, now));
    NoStep(r, actions);
    FirstStep(s2, actions, 5, r);
    FirstStep(s1, actions, 4, r);
    FirstStep(m, actions, 3, r);
    FirstSteps(s, m, t, now, actions, r);
  }

  lemma {:induction false} BecomesSender(s: State, t: Thread, now: int) returns (r: State)
    requires s.pcs(t).Idle? && s.lock == None
    requires s.recs(t.process).granted && s.recs(t.process).access != 0 && now + 300 > s.recs(t.process).expiresAt
    requires s.file.refresh != 0 && now + 300 > s.file.expiresAt && s.file.granted
    ensures Leads(s, [CallsAccess(t, now), Locks(t), Reads(t, now)], 0, r)
    ensures r.pcs(t) == Sending(Access, s.file.refresh) && r.recs(t.process) == s.file && r.lock == Some(t)
    ensures r.(recs := s.recs, pcs := s.pcs, lock := None) == s
  {
    hide Leads;
    var actions := [CallsAccess(t, now), Locks(t), Reads(t, now)];
    var s1 := Do(s, CallsAccess(t, now));
    var s2 := Do(s1, Locks(t));
    r := Do(s2, Reads(t, now));
    NoStep(r, actions);
    FirstStep(s2, actions, 2, r);
    FirstStep(s1, actions, 1, r);
    FirstStep(s, actions, 0, r);
  }

  lemma {:induction false} FirstSteps(s: State, m: State, t: Thread, now: int, actions: seq<Action>, r: State)
    requires |actions| >= 3 && actions[..3] == [CallsAccess(t, now), Locks(t), Reads(t, now)]
    requires Leads(s, actions[..3], 0, m) && Leads(m, actions, 3, r)
    ensures Leads(s, actions, 0, r)
  {
    hide Enabled, Do;
    var first := actions[..3];
    assert first[0] == actions[0] && first[1] == actions[1] && first[2] == actions[2];
    var s1 := Do(s, actions[0]);
    var s2 := Do(s1, actions[1]);
    assert Leads(s1, first, 1, m) && Leads(s2, first, 2, m) && Leads(Do(s2, actions[2]), first, 3, m);
    FirstStep(s2, actions, 2, r);
    FirstStep(s1, actions, 1, r);
  }

  /** If another process has renewed the sign-in meanwhile, the caller is handed that token and the service is not
      asked. */
  lemma {:induction false} RenewedByAnother(s: State, t: Thread, now: int) returns (r: State)
    requires s.pcs(t).Idle? && s.lock == None
    requires s.recs(t.process).granted && s.recs(t.process).access != 0 && now + 300 > s.recs(t.process).expiresAt
    requires s.file.granted && s.file.access != 0 && now + 300 <= s.file.expiresAt
    ensures Leads(s, [CallsAccess(t, now), Locks(t), Reads(t, now), Returns(t, now)], 0, r)
    ensures r.answers == s.answers + [Answer(Access, s.file.access)] && r.lock == None && r.pcs(t).Idle?
    ensures r.file == s.file && r.recs(t.process) == s.file && r.exchanges == s.exchanges
  {
    hide Leads;
    var actions := [CallsAccess(t, now), Locks(t), Reads(t, now), Returns(t, now)];
    var s1 := Do(s, CallsAccess(t, now));
    var s2 := Do(s1, Locks(t));
    var s3 := Do(s2, Reads(t, now));
    r := Do(s3, Returns(t, now));
    NoStep(r, actions);
    FirstStep(s3, actions, 3, r);
    FirstStep(s2, actions, 2, r);
    FirstStep(s1, actions, 1, r);
    FirstStep(s, actions, 0, r);
  }
}
