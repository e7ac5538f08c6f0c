/** Which messages are let in, and what one message brings about when nothing comes between its steps. */
module Admission {
  import opened Ingress

  // ---- nothing but what was let in -----------------------------------------------------------

  /** Somebody asked for it by name, it can be told from others, its channel is bound, and its sender may. */
  predicate LetIn(m: Message) {
    && m.explicit && m.key != ""
    && m.channelBound && m.permitted
  }

  /** The message came in one of the first `n` steps, and was one to let in. */
  ghost predicate Came(actions: seq<Action>, n: nat, m: Message)
    requires n <= |actions|
  {
    LetIn(m) && exists i :: 0 <= i < n && actions[i].Accepts? && actions[i].m == m
  }

  ghost predicate TurnCame(actions: seq<Action>, n: nat, key: string, conversation: Conversation)
    requires n <= |actions|
  {
    exists m :: Came(actions, n, m) && m.key == key && m.conversation == conversation && !m.command
  }

  ghost predicate KeyCame(actions: seq<Action>, n: nat, key: string)
    requires n <= |actions|
  {
    exists m :: Came(actions, n, m) && m.key == key
  }

  ghost predicate LinkCame(actions: seq<Action>, n: nat, conversation: Conversation)
    requires n <= |actions|
  {
    exists m :: Came(actions, n, m) && m.conversation == conversation
  }

  ghost predicate ThreadCame(s: State, actions: seq<Action>, n: nat, t: Thread)
    requires n <= |actions|
  {
    !s.pcs(t).Idle? ==> Came(actions, n, s.pcs(t).m) && (s.pcs(t).Starting? ==> !s.pcs(t).m.command)
  }

  ghost predicate ThreadsCame(s: State, actions: seq<Action>, n: nat)
    requires n <= |actions|
  {
    forall t :: ThreadCame(s, actions, n, t)
  }

  ghost predicate TablesCame(s: State, actions: seq<Action>, n: nat)
    requires n <= |actions|
  {
    && (forall i :: 0 <= i < |s.runs| ==> TurnCame(actions, n, s.runs[i].key, s.runs[i].conversation))
    && (forall i :: 0 <= i < |s.answers| ==> Came(actions, n, s.answers[i].m))
    && (forall key :: key in s.claims ==> KeyCame(actions, n, key))
    && (forall c :: c in s.links ==> LinkCame(actions, n, c))
  }

  lemma {:induction false} CameLater(actions: seq<Action>, n: nat)
    requires n < |actions|
    ensures forall m :: Came(actions, n, m) ==> Came(actions, n + 1, m)
    ensures forall key, c :: TurnCame(actions, n, key, c) ==> TurnCame(actions, n + 1, key, c)
    ensures forall key :: KeyCame(actions, n, key) ==> KeyCame(actions, n + 1, key)
    ensures forall c :: LinkCame(actions, n, c) ==> LinkCame(actions, n + 1, c)
  {
  }

  /** What came earlier came by now. */
  lemma {:induction false} CameByNow(s: State, actions: seq<Action>, n: nat)
    requires n < |actions| && TablesCame(s, actions, n) && ThreadsCame(s, actions, n)
    ensures TablesCame(s, actions, n + 1) && ThreadsCame(s, actions, n + 1)
  {
    hide Came, TurnCame, KeyCame, LinkCame;
    CameLater(actions, n);
    var k := n + 1;
    forall t ensures ThreadCame(s, actions, k, t) {
      assert ThreadCame(s, actions, n, t);
    }
  }

  lemma {:induction false} NowCame(actions: seq<Action>, n: nat)
    requires n < |actions| && actions[n].Accepts?
    ensures Acceptable(actions[n].m) ==> Came(actions, n + 1, actions[n].m)
  {
  }

  /** Whoever does not move stays where it is, unless everybody stops. */
  lemma {:induction false} OthersStay(s: State, a: Action, u: Thread)
    requires Enabled(s, a) && !a.Restarts? && a.t != u
    ensures Do(s, a).pcs(u) == s.pcs(u)
  {
    hide UnderWay, Enabled;
    match a
    case Accepts(t, m) => hide Looked, Made, Linked, Claimed, Answers;
    case Looks(t, ok) => hide Made, Linked, Claimed, Answers;
    case Creates(t, ok) => hide Looked, Linked, Claimed, Answers;
    case Binds(t, ok) => hide Looked, Made, Linked, Claimed, Answers;
    case Links(t, ok) => hide Looked, Made, Claimed, Answers;
    case LooksAgain(t, ok) => hide Looked, Made, Linked, Claimed, Answers;
    case Claims(t, ok) => hide Looked, Made, Linked;
    case Sends(t, ok) => hide Looked, Made, Linked, Claimed;
  }

  /** Where a thread goes it takes its message along. */
  lemma {:induction false} TakesItAlong(s: State, a: Action)
    requires Enabled(s, a) && !a.Restarts? && !a.Accepts?
    ensures !s.pcs(a.t).Idle?
    ensures var was, now := s.pcs(a.t), Do(s, a).pcs(a.t);
            now.Idle? || (now.m == was.m && (now.Starting? ==> !now.m.command))
  {
    hide UnderWay;
  }

  lemma {:induction false} ThreadStep(s: State, a: Action, actions: seq<Action>, k: nat, t: Thread)
    requires k <= |actions| && Enabled(s, a) && ThreadCame(s, actions, k, t)
    requires a.Accepts? && Acceptable(a.m) ==> Came(actions, k, a.m)
    ensures ThreadCame(Do(s, a), actions, k, t)
  {
    hide Came;
    if a.Restarts? || a.Accepts? {
    } else if a.t != t {
      hide Do, Enabled;
      OthersStay(s, a, t);
    } else {
      hide Do, Enabled;
      TakesItAlong(s, a);
    }
  }

  /** What a step starts is for the thread's message. */
  lemma {:induction false} AddsARun(s: State, a: Action)
    requires Enabled(s, a) && !a.Restarts? && !a.Accepts?
    ensures var m := s.pcs(a.t).m;
            Do(s, a).runs == s.runs +
              (if a.Sends? && a.ok then [Run(m.key, m.conversation, s.pcs(a.t).session)] else [])
  {
    hide UnderWay, Enabled;
    match a
    case Looks(t, ok) => hide Made, Linked, Claimed, Answers;
    case Creates(t, ok) => hide Looked, Linked, Claimed, Answers;
    case Binds(t, ok) => hide Looked, Made, Linked, Claimed, Answers;
    case Links(t, ok) => hide Looked, Made, Claimed, Answers;
    case LooksAgain(t, ok) => hide Looked, Made, Linked, Claimed, Answers;
    case Claims(t, ok) => hide Looked, Made, Linked;
    case Sends(t, ok) => hide Looked, Made, Linked, Claimed;
  }

  /** And what it claims or links. */
  lemma {:induction false} AddsItsKeys(s: State, a: Action)
    requires Enabled(s, a) && !a.Restarts? && !a.Accepts?
    ensures var r, m := Do(s, a), s.pcs(a.t).m;
            r.claims.Keys <= s.claims.Keys + {m.key} && r.links.Keys <= s.links.Keys + {m.conversation}
  {
    hide UnderWay, Enabled;
    match a
    case Looks(t, ok) => hide Made, Linked, Claimed, Answers;
    case Creates(t, ok) => hide Looked, Linked, Claimed, Answers;
    case Binds(t, ok) => hide Looked, Made, Linked, Claimed, Answers;
    case Links(t, ok) => hide Looked, Made, Claimed, Answers;
    case LooksAgain(t, ok) => hide Looked, Made, Linked, Claimed, Answers;
    case Claims(t, ok) => hide Looked, Made, Linked;
    case Sends(t, ok) => hide Looked, Made, Linked, Claimed;
  }

  /** And what it answers. */
  lemma {:induction false} AddsAnAnswer(s: State, a: Action)
    requires Enabled(s, a) && !a.Restarts? && !a.Accepts?
    ensures var r, m := Do(s, a), s.pcs(a.t).m;
            || r.answers == s.answers
            || (|r.answers| == |s.answers| + 1 && r.answers[|s.answers|].m == m
                && r.answers == s.answers + [r.answers[|s.answers|]])
  {
    hide UnderWay, Enabled;
    match a
    case Looks(t, ok) => hide Made, Linked, Claimed, Answers;
    case Creates(t, ok) => hide Looked, Linked, Claimed, Answers;
    case Binds(t, ok) => hide Looked, Made, Linked, Claimed, Answers;
    case Links(t, ok) => hide Looked, Made, Claimed, Answers;
    case LooksAgain(t, ok) => hide Looked, Made, Linked, Claimed, Answers;
    case Claims(t, ok) => hide Looked, Made, Linked;
    case Sends(t, ok) => hide Looked, Made, Linked, Claimed;
  }

  lemma {:induction false} TablesStep(s: State, a: Action, actions: seq<Action>, k: nat)
    requires k <= |actions| && Enabled(s, a) && TablesCame(s, actions, k)
    requires !a.Restarts? ==> ThreadCame(s, actions, k, a.t)
    ensures TablesCame(Do(s, a), actions, k)
  {
    hide Came, UnderWay, TurnCame, KeyCame, LinkCame, Enabled;
    if !a.Restarts? && !a.Accepts? {
      hide Do;
      TakesItAlong(s, a);
      AddsARun(s, a);
      AddsItsKeys(s, a);
      AddsAnAnswer(s, a);
      MessageCame(actions, k, s.pcs(a.t).m);
      if a.Sends? {
        SendsWhenStarting(s, a);
      }
    }
  }

  lemma {:induction false} SendsWhenStarting(s: State, a: Action)
    requires Enabled(s, a) && a.Sends?
    ensures s.pcs(a.t).Starting?
  {
  }

  lemma {:induction false} MessageCame(actions: seq<Action>, k: nat, m: Message)
    requires k <= |actions| && Came(actions, k, m)
    ensures KeyCame(actions, k, m.key) && LinkCame(actions, k, m.conversation)
    ensures !m.command ==> TurnCame(actions, k, m.key, m.conversation)
  {
    hide Came;
  }

  lemma {:induction false} CameStep(s: State, r: State, actions: seq<Action>, n: nat)
    requires n < |actions| && Enabled(s, actions[n]) && r == Do(s, actions[n])
    requires TablesCame(s, actions, n) && ThreadsCame(s, actions, n)
    ensures TablesCame(r, actions, n + 1) && ThreadsCame(r, actions, n + 1)
  {
    hide Came, TablesCame, ThreadCame, Do;
    CameByNow(s, actions, n);
    if actions[n].Accepts? {
      NowCame(actions, n);
    }
    var k := n + 1;
    TablesStep(s, actions[n], actions, k);
    forall t ensures ThreadCame(r, actions, k, t) {
      ThreadStep(s, actions[n], actions, k, t);
    }
  }

  /** Over every run: whatever was started, answered, claimed or linked was for a message that came, that somebody
      asked for by name, with a key, in a bound channel, from a sender who may; and a run is never for a command. */
  lemma {:induction false} OnlyWhatWasLetIn(states: seq<State>, actions: seq<Action>, n: nat)
    requires Runs(states, actions) && n <= |actions|
    ensures TablesCame(states[n], actions, n) && ThreadsCame(states[n], actions, n)
  {
    hide Do, Enabled, Came, TablesCame, ThreadsCame;
    if n == 0 {
      NothingCame(states[0], actions);
    } else {
      OnlyWhatWasLetIn(states, actions, n - 1);
      CameStep(states[n - 1], states[n], actions, n - 1);
    }
  }

  lemma {:induction false} NothingCame(s: State, actions: seq<Action>)
    requires Start(s)
    ensures TablesCame(s, actions, 0) && ThreadsCame(s, actions, 0)
  {
  }

  /** An error on the way ends what is done for the message: nothing is linked, claimed, started or answered for it. If
      the error comes when its turn is sent, the claim it has stays. */
  lemma {:induction false} AnErrorEndsIt(s: State, a: Action)
    requires Enabled(s, a) && !a.Restarts? && !a.Accepts? && !a.ok && (a.Binds? ==> s.binder)
    ensures var r := Do(s, a);
            && r.pcs(a.t).Idle? && (forall u :: u != a.t ==> r.pcs(u) == s.pcs(u))
            && r.links == s.links && r.claims == s.claims && r.runs == s.runs && r.answers == s.answers
            && r.bound == s.bound && r.lost == s.lost + (if a.Sends? then {s.pcs(a.t).m.key} else {})
  {
    hide UnderWay, Looked, Made, Linked, Claimed;
  }

  // ---- one message by itself -----------------------------------------------------------------------

  /** The steps of one message, none of which fails, that nothing comes between. */
  function Finished(s: State, t: Thread, steps: nat): (r: State)
    decreases steps
  {
    if steps == 0 then s
    else
      match s.pcs(t)
      case Idle => s
      case Looking(_) => Finished(Do(s, Looks(t, true)), t, steps - 1)
      case Creating(_) => Finished(Do(s, Creates(t, true)), t, steps - 1)
      case Created(_, _) => Finished(Do(s, Binds(t, true)), t, steps - 1)
      case Bound(_, _) => Finished(Do(s, Links(t, true)), t, steps - 1)
      case Losing(_) => Finished(Do(s, LooksAgain(t, true)), t, steps - 1)
      case HasSession(_, _) => Finished(Do(s, Claims(t, true)), t, steps - 1)
      case Starting(_, _) => Finished(Do(s, Sends(t, true)), t, steps - 1)
  }

  /** A message that is let in is answered in at most six steps more, about its conversation's session, which is the
      one linked before or else a new one. It starts one run, unless its key had been claimed or it is a command. Any
      other message changes nothing. */
  lemma {:induction false} HandledAlone(s: State, t: Thread, m: Message)
    requires s.pcs(t).Idle?
    ensures var r := Finished(Do(s, Accepts(t, m)), t, 6);
            var session := if m.conversation in s.links then s.links[m.conversation] else s.next;
            var again := m.key in s.claims;
            if m.explicit && m.key != "" && m.channelBound && m.permitted then
              && r.pcs(t).Idle? && r.answers == s.answers + [Accepted(m, session, again)]
              && r.links == s.links[m.conversation := session]
              && r.runs == s.runs + (if again || m.command then [] else [Run(m.key, m.conversation, session)])
              && r.claims == (if again then s.claims else s.claims[m.key := t])
              && r.bound == s.bound + (if s.binder && m.conversation !in s.links then {session} else {})
              && r.lost == s.lost && forall u :: u != t ==> r.pcs(u) == s.pcs(u)
            else r == Do(s, Accepts(t, m)) && r.(pcs := s.pcs) == s && forall u :: r.pcs(u) == s.pcs(u)
  {
    var s1 := Do(s, Accepts(t, m));
    if Acceptable(m) {
      var s2 := Do(s1, Looks(t, true));
      assert Finished(s1, t, 6) == Finished(s2, t, 5);
      if m.conversation in s.links {
        ClaimsAlone(s, s2, t, m, s.links[m.conversation], 5);
      } else {
        LinksAlone(s, s2, t, m);
        ClaimsAlone(s, Finished(s2, t, 3), t, m, s.next, 2);
      }
    }
  }

  /** A conversation that has no session yet gets one. */
  lemma {:induction false} LinksAlone(s: State, was: State, t: Thread, m: Message)
    requires was.pcs(t) == Creating(m) && was.(pcs := s.pcs) == s && m.conversation !in s.links
    requires forall u :: u != t ==> was.pcs(u) == s.pcs(u)
    ensures var r := Finished(was, t, 3);
            && Finished(was, t, 5) == Finished(r, t, 2) && r.pcs(t) == HasSession(m, s.next)
            && r.links == s.links[m.conversation := s.next]
            && r.bound == s.bound + (if s.binder then {s.next} else {})
            && r.runs == s.runs && r.answers == s.answers && r.claims == s.claims && r.lost == s.lost
            && forall u :: u != t ==> r.pcs(u) == s.pcs(u)
  {
    var s3 := Do(was, Creates(t, true));
    var s4 := Do(s3, Binds(t, true));
    var s5 := Do(s4, Links(t, true));
    assert Finished(was, t, 5) == Finished(s3, t, 4) == Finished(s4, t, 3) == Finished(s5, t, 2);
    assert Finished(was, t, 3) == Finished(s3, t, 2) == Finished(s4, t, 1) == Finished(s5, t, 0);
  }

  /** A message that loses the race for its conversation is answered about the session that won, as if it had come
      later; the one it made is used by nobody. */
  lemma {:induction false} LoserJoins(s: State, t: Thread, m: Message, own: Session)
    requires s.pcs(t) == Bound(m, own) && m.conversation in s.links
    ensures var r, again := Finished(s, t, 4), m.key in s.claims;
            && r.pcs(t).Idle? && r.answers == s.answers + [Accepted(m, s.links[m.conversation], again)]
            && r.links == s.links
            && r.runs == s.runs
                 + (if again || m.command then [] else [Run(m.key, m.conversation, s.links[m.conversation])])
  {
    var s1 := Do(s, Links(t, true));
    var s2 := Do(s1, LooksAgain(t, true));
    assert Finished(s, t, 4) == Finished(s1, t, 3) == Finished(s2, t, 2);
    ClaimsAlone(s, s2, t, m, s.links[m.conversation], 2);
  }

  /** From the session on. */
  lemma {:induction false} ClaimsAlone(s: State, was: State, t: Thread, m: Message, session: Session, steps: nat)
    requires was.pcs(t) == HasSession(m, session) && steps >= 2
    requires was.runs == s.runs && was.answers == s.answers && was.claims == s.claims && was.lost == s.lost
    ensures var r, again := Finished(was, t, steps), m.key in s.claims;
            && r.pcs(t).Idle? && r.answers == s.answers + [Accepted(m, session, again)]
            && r.runs == s.runs + (if again || m.command then [] else [Run(m.key, m.conversation, session)])
            && r.claims == (if again then s.claims else s.claims[m.key := t])
            && r.links == was.links && r.bound == was.bound && r.lost == s.lost
            && forall u :: u != t ==> r.pcs(u) == was.pcs(u)
  {
    var now := Do(was, Claims(t, true));
    assert Finished(was, t, steps) == Finished(now, t, steps - 1);
    if now.pcs(t).Idle? {
      assert Finished(now, t, steps - 1) == now;
    } else {
      var then' := Do(now, Sends(t, true));
      assert Finished(now, t, steps - 1) == Finished(then', t, steps - 2) == then';
    }
  }
}
