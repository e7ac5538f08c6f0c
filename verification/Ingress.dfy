/** Messages arriving at once, and twice, over a write-once link table and an atomic claim.

    Each step is one call into the store, the runtime or the binder; any other thread may run
    between two of them, and any of them may fail. The daemon may restart between any two steps:
    links and claims are on disk, the profiles the binder keeps and the calls under way are not.
  */
module Ingress {

  type Conversation = string
  type Session = nat
  type Thread = nat

  /** What a message is as far as accepting it goes: whether somebody asked for it, whether its channel is
      bound and lets its sender in, and whether it is a command to the console rather than a turn. */
  datatype Message = Message(
    conversation: Conversation, key: string, explicit: bool, channelBound: bool, permitted: bool, command: bool)

  predicate Acceptable(m: Message) {
    m.explicit && m.key != "" && m.channelBound && m.permitted
  }

  datatype Pc =
    | Idle
    | Looking(m: Message)
    | Creating(m: Message)
    | Created(m: Message, session: Session)
    | Bound(m: Message, session: Session)
    | Losing(m: Message)
    | HasSession(m: Message, session: Session)
    | Starting(m: Message, session: Session)

  datatype Run = Run(key: string, conversation: Conversation, session: Session)

  datatype Accepted = Accepted(m: Message, session: Session, duplicate: bool)

  /** `binder` is whether there is one. `owner` is who created a session, `linkedBefore` is what was linked at the last
      restart, and `lost` is what was claimed for a turn that then did not start; `commands` was claimed for none. */
  datatype State = State(
    binder: bool,
    links: map<Conversation, Session>,
    claims: map<string, Thread>,
    bound: set<Session>,
    next: Session,
    owner: map<Session, Thread>,
    pcs: Thread -> Pc,
    runs: seq<Run>,
    answers: seq<Accepted>,
    linkedBefore: set<Conversation>,
    lost: set<string>,
    commands: set<string>)

  datatype Action =
    | Accepts(t: Thread, m: Message)
    | Looks(t: Thread, ok: bool)
    | Creates(t: Thread, ok: bool)
    | Binds(t: Thread, ok: bool)
    | Links(t: Thread, ok: bool)
    | LooksAgain(t: Thread, ok: bool)
    | Claims(t: Thread, ok: bool)
    | Sends(t: Thread, ok: bool)
    | Restarts

  ghost predicate Start(s: State) {
    && s.links == map[] && s.claims == map[] && s.bound == {} && s.owner == map[] && s.runs == [] && s.answers == []
    && s.linkedBefore == {} && s.lost == {} && s.commands == {}
    && forall t :: s.pcs(t).Idle?
  }

  ghost predicate Enabled(s: State, a: Action) {
    match a
    case Accepts(t, _) => s.pcs(t).Idle?
    case Looks(t, _) => s.pcs(t).Looking?
    case Creates(t, _) => s.pcs(t).Creating?
    case Binds(t, _) => s.pcs(t).Created?
    case Links(t, _) => s.pcs(t).Bound?
    case LooksAgain(t, _) => s.pcs(t).Losing?
    case Claims(t, _) => s.pcs(t).HasSession?
    case Sends(t, _) => s.pcs(t).Starting?
    case Restarts => true
  }

  function Goes(s: State, t: Thread, pc: Pc): State {
    s.(pcs := (u: Thread) => if u == t then pc else s.pcs(u))
  }

  function Answers(s: State, t: Thread, m: Message, session: Session, duplicate: bool): State {
    Goes(s, t, Idle).(answers := s.answers + [Accepted(m, session, duplicate)])
  }

  /** Finds a session for the conversation. */
  function Looked(s: State, t: Thread, m: Message): State {
    Goes(s, t, if m.conversation in s.links then HasSession(m, s.links[m.conversation]) else Creating(m))
  }

  function Made(s: State, t: Thread, m: Message): State {
    Goes(s, t, Created(m, s.next)).(next := s.next + 1, owner := s.owner[s.next := t])
  }

  /** Records the link, unless another message for the conversation was first. */
  function Linked(s: State, t: Thread, m: Message, session: Session): State {
    if m.conversation in s.links then Goes(s, t, Losing(m))
    else Goes(s, t, HasSession(m, session)).(links := s.links[m.conversation := session])
  }

  function Claimed(s: State, t: Thread, m: Message, session: Session): State {
    if m.key in s.claims then Answers(s, t, m, session, true)
    else
      var claimed := s.(claims := s.claims[m.key := t]);
      if m.command then Answers(claimed, t, m, session, false).(commands := s.commands + {m.key})
      else Goes(claimed, t, Starting(m, session))
  }

  /** A turn that has been claimed and is about to be sent. */
  predicate UnderWay(s: State, key: string) {
    key in s.claims && s.pcs(s.claims[key]).Starting? && s.pcs(s.claims[key]).m.key == key
  }

  /** Everything in memory goes. */
  function Restarted(s: State): State {
    s.(pcs := (u: Thread) => Idle, bound := {}, linkedBefore := s.links.Keys,
       lost := s.lost + set key | key in s.claims && UnderWay(s, key))
  }

  function Do(s: State, a: Action): State
    requires Enabled(s, a)
  {
    match a
    case Accepts(t, m) => if Acceptable(m) then Goes(s, t, Looking(m)) else s
    case Looks(t, ok) => if ok then Looked(s, t, s.pcs(t).m) else Goes(s, t, Idle)
    case Creates(t, ok) => if ok then Made(s, t, s.pcs(t).m) else Goes(s, t, Idle)
    case Binds(t, ok) =>
      var m, session := s.pcs(t).m, s.pcs(t).session;
      if !s.binder then Goes(s, t, Bound(m, session))
      else if ok then Goes(s, t, Bound(m, session)).(bound := s.bound + {session})
      else Goes(s, t, Idle)
    case Links(t, ok) => if ok then Linked(s, t, s.pcs(t).m, s.pcs(t).session) else Goes(s, t, Idle)
    case LooksAgain(t, ok) =>
      var m := s.pcs(t).m;
      if ok && m.conversation in s.links then Goes(s, t, HasSession(m, s.links[m.conversation])) else Goes(s, t, Idle)
    case Claims(t, ok) => if ok then Claimed(s, t, s.pcs(t).m, s.pcs(t).session) else Goes(s, t, Idle)
    case Sends(t, ok) =>
      var m, session := s.pcs(t).m, s.pcs(t).session;
      if ok then Answers(s, t, m, session, false).(runs := s.runs + [Run(m.key, m.conversation, session)])
      else Goes(s, t, Idle).(lost := s.lost + {m.key})
    case Restarts => Restarted(s)
  }

  ghost predicate Runs(states: seq<State>, actions: seq<Action>) {
    && |states| == |actions| + 1 && Start(states[0])
    && forall i :: 0 <= i < |actions| ==> Enabled(states[i], actions[i]) && Do(states[i], actions[i]) == states[i + 1]
  }

  // ---- the invariant --------------------------------------------------------------------

  ghost predicate IsLink(s: State, conversation: Conversation, session: Session) {
    conversation in s.links && s.links[conversation] == session
  }

  /** A session that was created for nobody yet. */
  ghost predicate Own(s: State, t: Thread, session: Session) {
    && session in s.owner && s.owner[session] == t
    && forall c :: c in s.links ==> s.links[c] != session
  }

  ghost predicate ThreadOk(s: State, t: Thread) {
    match s.pcs(t)
    case Created(_, session) => Own(s, t, session)
    case Bound(_, session) => Own(s, t, session) && (s.binder ==> session in s.bound)
    case Losing(m) => m.conversation in s.links
    case HasSession(m, session) => IsLink(s, m.conversation, session)
    case Starting(m, session) =>
      IsLink(s, m.conversation, session) && m.key in s.claims && s.claims[m.key] == t && NoRun(s, m.key)
    case _ => true
  }

  ghost predicate NoRun(s: State, key: string) {
    forall i :: 0 <= i < |s.runs| ==> s.runs[i].key != key
  }

  ghost predicate LinksOk(s: State) {
    && (forall x :: x in s.owner ==> x < s.next)
    && (forall x :: x in s.bound ==> s.binder && x in s.owner)
    && s.linkedBefore <= s.links.Keys
    && (forall c :: c in s.links ==>
         s.links[c] in s.owner && (s.binder ==> (s.links[c] in s.bound <==> c !in s.linkedBefore)))
    && (forall c, d :: c in s.links && d in s.links && s.links[c] == s.links[d] ==> c == d)
  }

  ghost predicate RunsOk(s: State) {
    && (forall i :: 0 <= i < |s.runs| ==>
         s.runs[i].key in s.claims && IsLink(s, s.runs[i].conversation, s.runs[i].session))
    && (forall i, j :: 0 <= i < j < |s.runs| ==> s.runs[i].key != s.runs[j].key)
    && (forall i :: 0 <= i < |s.answers| ==>
          s.answers[i].m.key in s.claims && IsLink(s, s.answers[i].m.conversation, s.answers[i].session))
  }

  ghost predicate HasRun(s: State, key: string) {
    exists i :: 0 <= i < |s.runs| && s.runs[i].key == key
  }

  /** What became of a claim: its run, a run under way, a command, or nothing. */
  ghost predicate ClaimOk(s: State, key: string) {
    && (key in s.claims <==> HasRun(s, key) || UnderWay(s, key) || key in s.commands || key in s.lost)
    && !(HasRun(s, key) && (key in s.commands || key in s.lost))
    && !(UnderWay(s, key) && (key in s.commands || key in s.lost))
    && !(key in s.commands && key in s.lost)
  }

  ghost predicate Inv(s: State) {
    LinksOk(s) && RunsOk(s) && (forall t :: ThreadOk(s, t)) && forall key :: ClaimOk(s, key)
  }

  /** A claim whose tables and holder stay as they are is as it was. */
  lemma {:induction false} ClaimStays(s: State, r: State, key: string)
    requires ClaimOk(s, key) && r.runs == s.runs && (key in r.claims <==> key in s.claims)
    requires key in r.claims ==> r.claims[key] == s.claims[key] && (UnderWay(r, key) <==> UnderWay(s, key))
    requires (key in r.commands <==> key in s.commands) && (key in r.lost <==> key in s.lost)
    ensures ClaimOk(r, key)
  {
  }

  /** What changes when `t` moves without touching the tables: nothing for anybody else. */
  lemma {:induction false} MovesOk(s: State, t: Thread, pc: Pc)
    requires Inv(s) && ThreadOk(Goes(s, t, pc), t) && !s.pcs(t).Starting? && !pc.Starting?
    ensures Inv(Goes(s, t, pc))
  {
    var r := Goes(s, t, pc);
    assert LinksOk(r) && RunsOk(r);
    hide LinksOk, RunsOk;
    forall u ensures ThreadOk(r, u) {
      assert ThreadOk(s, u);
    }
    hide ThreadOk;
    forall key ensures ClaimOk(r, key) {
      ClaimStays(s, r, key);
    }
  }

  lemma {:induction false} MadeOk(s: State, t: Thread, m: Message)
    requires Inv(s) && s.pcs(t) == Creating(m)
    ensures Inv(Made(s, t, m))
  {
    var r := Made(s, t, m);
    forall u ensures ThreadOk(r, u) {
      assert ThreadOk(s, u);
    }
    forall key ensures ClaimOk(r, key) {
      ClaimStays(s, r, key);
    }
  }

  lemma {:induction false} BindsOk(s: State, t: Thread, m: Message, session: Session)
    requires Inv(s) && s.pcs(t) == Created(m, session)
    ensures s.binder ==> Inv(Goes(s, t, Bound(m, session)).(bound := s.bound + {session}))
    ensures !s.binder ==> Inv(Goes(s, t, Bound(m, session)))
  {
    assert ThreadOk(s, t);
    if !s.binder {
      MovesOk(s, t, Bound(m, session));
    } else {
      var r := Goes(s, t, Bound(m, session)).(bound := s.bound + {session});
      forall u ensures ThreadOk(r, u) {
        assert ThreadOk(s, u);
      }
      forall key ensures ClaimOk(r, key) {
        ClaimStays(s, r, key);
      }
    }
  }

  lemma {:induction false} LinkedOk(s: State, t: Thread, m: Message, session: Session)
    requires Inv(s) && s.pcs(t) == Bound(m, session)
    ensures Inv(Linked(s, t, m, session))
  {
    assert ThreadOk(s, t);
    if m.conversation in s.links {
      MovesOk(s, t, Losing(m));
    } else {
      var r := Linked(s, t, m, session);
      assert LinksOk(r) && RunsOk(r);
      forall u ensures ThreadOk(r, u) {
        LinkedThread(s, t, m, session, u);
      }
      hide LinksOk, RunsOk, ThreadOk;
      forall key ensures ClaimOk(r, key) {
        ClaimStays(s, r, key);
      }
    }
  }

  lemma {:induction false} LinkedThread(s: State, t: Thread, m: Message, session: Session, u: Thread)
    requires ThreadOk(s, t) && ThreadOk(s, u) && s.pcs(t) == Bound(m, session) && m.conversation !in s.links
    ensures ThreadOk(Linked(s, t, m, session), u)
  {
  }

  lemma {:induction false} ClaimedOk(s: State, t: Thread, m: Message, session: Session)
    requires Inv(s) && s.pcs(t) == HasSession(m, session)
    ensures Inv(Claimed(s, t, m, session))
  {
    assert ThreadOk(s, t);
    var r := Claimed(s, t, m, session);
    assert LinksOk(r) && RunsOk(r);
    forall u ensures ThreadOk(r, u) {
      ClaimedThread(s, t, m, session, u);
    }
    hide LinksOk, RunsOk, ThreadOk;
    forall key ensures ClaimOk(r, key) {
      ClaimedClaim(s, t, m, session, key);
    }
  }

  lemma {:induction false} ClaimedThread(s: State, t: Thread, m: Message, session: Session, u: Thread)
    requires RunsOk(s) && ThreadOk(s, t) && ThreadOk(s, u) && s.pcs(t) == HasSession(m, session)
    ensures ThreadOk(Claimed(s, t, m, session), u)
  {
  }

  lemma {:induction false} ClaimedClaim(s: State, t: Thread, m: Message, session: Session, key: string)
    requires ClaimOk(s, key) && s.pcs(t) == HasSession(m, session)
    ensures ClaimOk(Claimed(s, t, m, session), key)
  {
    var r := Claimed(s, t, m, session);
    assert r.runs == s.runs;
    assert HasRun(r, key) <==> HasRun(s, key);
    hide HasRun;
    if m.key !in s.claims && key == m.key {
      assert UnderWay(r, key) <==> !m.command;
    } else {
      assert key in s.claims ==> (UnderWay(r, key) <==> UnderWay(s, key));
    }
  }

  function Sent(s: State, t: Thread, m: Message, session: Session): State {
    Answers(s, t, m, session, false).(runs := s.runs + [Run(m.key, m.conversation, session)])
  }

  lemma {:induction false} SendsOk(s: State, t: Thread, m: Message, session: Session)
    requires Inv(s) && s.pcs(t) == Starting(m, session)
    ensures Inv(Sent(s, t, m, session))
  {
    assert ThreadOk(s, t) && ClaimOk(s, m.key);
    assert UnderWay(s, m.key);
    var r := Sent(s, t, m, session);
    forall u ensures ThreadOk(r, u) {
      assert ThreadOk(s, u);
    }
    forall key ensures ClaimOk(r, key) {
      SentClaim(s, t, m, session, key);
    }
  }

  lemma {:induction false} SentClaim(s: State, t: Thread, m: Message, session: Session, key: string)
    requires ClaimOk(s, key) && s.pcs(t) == Starting(m, session) && m.key in s.claims && s.claims[m.key] == t
    ensures ClaimOk(Sent(s, t, m, session), key)
  {
    var r := Sent(s, t, m, session);
    assert r.runs[|s.runs|].key == m.key;
    if key == m.key {
      assert HasRun(r, key);
    } else {
      assert HasRun(s, key) ==> HasRun(r, key) by {
        if i :| 0 <= i < |s.runs| && s.runs[i].key == key {
          assert r.runs[i].key == key;
        }
      }
      assert HasRun(r, key) ==> HasRun(s, key);
    }
  }

  /** A turn that was claimed and could not be sent. */
  lemma {:induction false} LosesOk(s: State, t: Thread, m: Message, session: Session)
    requires Inv(s) && s.pcs(t) == Starting(m, session)
    ensures Inv(Goes(s, t, Idle).(lost := s.lost + {m.key}))
  {
    assert ThreadOk(s, t) && ClaimOk(s, m.key);
    assert UnderWay(s, m.key);
    var r := Goes(s, t, Idle).(lost := s.lost + {m.key});
    forall u ensures ThreadOk(r, u) {
      assert ThreadOk(s, u);
    }
    forall key ensures ClaimOk(r, key) {
      if key != m.key {
        ClaimStays(s, r, key);
      } else {
        assert !HasRun(r, key);
      }
    }
  }

  lemma {:induction false} RestartsOk(s: State)
    requires Inv(s)
    ensures Inv(Restarted(s))
  {
    var r := Restarted(s);
    forall key ensures ClaimOk(r, key) {
      assert ClaimOk(s, key);
      assert HasRun(r, key) <==> HasRun(s, key);
      if UnderWay(s, key) {
        assert ThreadOk(s, s.claims[key]);
      }
    }
  }

  lemma {:induction false} StepOk(s: State, a: Action)
    requires Inv(s) && Enabled(s, a)
    ensures Inv(Do(s, a))
  {
    if !a.Restarts? && !s.pcs(a.t).Starting? {
      MovesOk(s, a.t, Idle);
      assert ThreadOk(s, a.t);
    }
    match a
    case Accepts(t, m) => if Acceptable(m) { MovesOk(s, t, Looking(m)); }
    case Looks(t, ok) =>
      var m := s.pcs(t).m;
      MovesOk(s, t, if m.conversation in s.links then HasSession(m, s.links[m.conversation]) else Creating(m));
    case Creates(t, ok) => MadeOk(s, t, s.pcs(t).m);
    case Binds(t, ok) => BindsOk(s, t, s.pcs(t).m, s.pcs(t).session);
    case Links(t, ok) => LinkedOk(s, t, s.pcs(t).m, s.pcs(t).session);
    case LooksAgain(t, ok) =>
      var m := s.pcs(t).m;
      if m.conversation in s.links {
        MovesOk(s, t, HasSession(m, s.links[m.conversation]));
      }
    case Claims(t, ok) => ClaimedOk(s, t, s.pcs(t).m, s.pcs(t).session);
    case Sends(t, ok) =>
      SendsOk(s, t, s.pcs(t).m, s.pcs(t).session);
      LosesOk(s, t, s.pcs(t).m, s.pcs(t).session);
    case Restarts => RestartsOk(s);
  }

  lemma {:induction false} RunOk(states: seq<State>, actions: seq<Action>, n: nat)
    requires Runs(states, actions) && n < |states|
    ensures Inv(states[n])
  {
    hide Inv, Do, Enabled;
    if n == 0 {
      StartsOk(states[0]);
    } else {
      RunOk(states, actions, n - 1);
      StepOk(states[n - 1], actions[n - 1]);
    }
  }

  lemma {:induction false} StartsOk(s: State)
    requires Start(s)
    ensures Inv(s)
  {
  }

  // ---- what that means --------------------------------------------------------------------

  /** Everybody who is answered about a conversation is answered with the same session, and no other
      conversation shares it. */
  lemma {:induction false} OneSessionPerConversation(states: seq<State>, actions: seq<Action>, n: nat, i: nat, j: nat)
    requires Runs(states, actions) && n < |states| && i < |states[n].answers| && j < |states[n].answers|
    ensures var a, b := states[n].answers[i], states[n].answers[j];
            a.m.conversation == b.m.conversation <==> a.session == b.session
  {
    RunOk(states, actions, n);
  }

  /** A link, once made, is the conversation's for good. */
  lemma {:induction false} LinksAreForGood(states: seq<State>, actions: seq<Action>, m: nat, n: nat, c: Conversation)
    requires Runs(states, actions) && m <= n < |states| && c in states[m].links
    ensures c in states[n].links && states[n].links[c] == states[m].links[c]
    decreases n
  {
    hide Do, Enabled;
    if m < n {
      LinksAreForGood(states, actions, m, n - 1, c);
      LinkStays(states[n - 1], actions[n - 1], c);
    }
  }

  lemma {:induction false} LinkStays(s: State, a: Action, c: Conversation)
    requires Enabled(s, a) && c in s.links
    ensures c in Do(s, a).links && Do(s, a).links[c] == s.links[c]
  {
    hide Enabled, Do;
    Tables(s, a);
  }

  /** What a step may do to the links, to what was linked at a restart and to what was lost. */
  ghost predicate Kept(s: State, r: State) {
    s.links.Keys <= r.links.Keys && (forall c :: c in s.links ==> r.links[c] == s.links[c])
    && r.linkedBefore == s.linkedBefore && r.lost == s.lost
  }

  lemma {:induction false} GoesKeeps(s: State, t: Thread, pc: Pc)
    ensures Kept(s, Goes(s, t, pc))
  {
  }

  lemma {:induction false} LookedKeeps(s: State, t: Thread, m: Message)
    ensures Kept(s, Looked(s, t, m)) && Kept(s, Made(s, t, m))
  {
  }

  lemma {:induction false} LinkedKeeps(s: State, t: Thread, m: Message, session: Session)
    ensures Kept(s, Linked(s, t, m, session)) && Kept(s, Claimed(s, t, m, session))
    ensures Kept(s, Answers(s, t, m, session, false))
  {
  }

  lemma {:induction false} Tables(s: State, a: Action)
    requires Enabled(s, a)
    ensures var r := Do(s, a);
            && s.links.Keys <= r.links.Keys && (forall c :: c in s.links ==> r.links[c] == s.links[c])
            && r.linkedBefore == (if a.Restarts? then s.links.Keys else s.linkedBefore)
            && (forall key :: key in r.lost <==> key in s.lost || LosesNow(s, a, key))
  {
    hide Goes, Looked, Made, Linked, Claimed, Answers;
    if !a.Restarts? {
      GoesKeeps(s, a.t, Idle);
    }
    match a
    case Accepts(t, m) => GoesKeeps(s, t, Looking(m));
    case Looks(t, ok) => LookedKeeps(s, t, s.pcs(t).m);
    case Creates(t, ok) => LookedKeeps(s, t, s.pcs(t).m);
    case Binds(t, ok) => GoesKeeps(s, t, Bound(s.pcs(t).m, s.pcs(t).session));
    case Links(t, ok) => LinkedKeeps(s, t, s.pcs(t).m, s.pcs(t).session);
    case LooksAgain(t, ok) =>
      var m := s.pcs(t).m;
      if m.conversation in s.links {
        GoesKeeps(s, t, HasSession(m, s.links[m.conversation]));
      }
    case Claims(t, ok) => LinkedKeeps(s, t, s.pcs(t).m, s.pcs(t).session);
    case Sends(t, ok) => LinkedKeeps(s, t, s.pcs(t).m, s.pcs(t).session);
    case Restarts =>
  }

  /** A message delivered any number of times starts at most one run, in the session of its conversation. */
  lemma {:induction false} OneRunPerMessage(states: seq<State>, actions: seq<Action>, n: nat, i: nat, j: nat)
    requires Runs(states, actions) && n < |states| && i < |states[n].runs| && j < |states[n].runs|
    ensures states[n].runs[i].key == states[n].runs[j].key ==> i == j
    ensures IsLink(states[n], states[n].runs[i].conversation, states[n].runs[i].session)
  {
    RunOk(states, actions, n);
  }

  // ---- restarts -------------------------------------------------------------------------------

  /** The daemon restarted before `n`, with the conversation linked. */
  ghost predicate LinkedAtARestart(states: seq<State>, actions: seq<Action>, n: nat, c: Conversation)
    requires |states| == |actions| + 1 && n < |states|
  {
    exists i :: 0 <= i < n && actions[i].Restarts? && c in states[i].links
  }

  lemma {:induction false} LinkedBeforeIs(states: seq<State>, actions: seq<Action>, n: nat, c: Conversation)
    requires Runs(states, actions) && n < |states|
    ensures c in states[n].linkedBefore <==> LinkedAtARestart(states, actions, n, c)
  {
    hide Enabled, Do;
    if n > 0 {
      LinkedBeforeIs(states, actions, n - 1, c);
      Tables(states[n - 1], actions[n - 1]);
      if i :| 0 <= i < n - 1 && actions[i].Restarts? && c in states[i].links {
        LinksAreForGood(states, actions, i, n - 1, c);
      }
    }
  }

  /** With a binder, a turn reaches a session whose profile is not bound exactly when its conversation was linked
      before the daemon last restarted: nothing binds a session again once it is linked. */
  lemma {:induction false} UnboundIff(states: seq<State>, actions: seq<Action>, n: nat, t: Thread)
    requires Runs(states, actions) && n < |states| && states[n].binder && states[n].pcs(t).Starting?
    ensures states[n].pcs(t).session !in states[n].bound
       <==> LinkedAtARestart(states, actions, n, states[n].pcs(t).m.conversation)
  {
    RunOk(states, actions, n);
    assert ThreadOk(states[n], t);
    LinkedBeforeIs(states, actions, n, states[n].pcs(t).m.conversation);
  }

  /** A turn was claimed and then could not be sent, or the daemon restarted before it was. */
  ghost predicate LostAt(states: seq<State>, actions: seq<Action>, i: nat, key: string)
    requires i < |actions| && |states| == |actions| + 1
  {
    match actions[i]
    case Sends(t, ok) => !ok && states[i].pcs(t).Starting? && states[i].pcs(t).m.key == key
    case Restarts => UnderWay(states[i], key)
    case _ => false
  }

  lemma {:induction false} LostIs(states: seq<State>, actions: seq<Action>, n: nat, key: string)
    requires Runs(states, actions) && n < |states|
    ensures key in states[n].lost <==> exists i :: 0 <= i < n && LostAt(states, actions, i, key)
  {
    hide Enabled, UnderWay, Do;
    if n > 0 {
      LostIs(states, actions, n - 1, key);
      Tables(states[n - 1], actions[n - 1]);
      assert LostAt(states, actions, n - 1, key) <==> LosesNow(states[n - 1], actions[n - 1], key);
    }
  }

  ghost predicate LosesNow(s: State, a: Action, key: string) {
    match a
    case Sends(t, ok) => !ok && s.pcs(t).Starting? && s.pcs(t).m.key == key
    case Restarts => UnderWay(s, key)
    case _ => false
  }

  /** A message that was claimed for a turn has no run, and none under way, exactly when the claim was lost. A later
      delivery of it is answered as a duplicate all the same. */
  lemma {:induction false} ClaimedWithoutARunIff(states: seq<State>, actions: seq<Action>, n: nat, key: string)
    requires Runs(states, actions) && n < |states| && key in states[n].claims && key !in states[n].commands
    ensures NoRun(states[n], key) && !UnderWay(states[n], key)
       <==> exists i :: 0 <= i < n && LostAt(states, actions, i, key)
  {
    RunOk(states, actions, n);
    assert ClaimOk(states[n], key);
    LostIs(states, actions, n, key);
  }

  /** Whatever is answered was claimed. */
  lemma {:induction false} AnsweredWasClaimed(states: seq<State>, actions: seq<Action>, n: nat, i: nat)
    requires Runs(states, actions) && n < |states| && i < |states[n].answers|
    ensures states[n].answers[i].m.key in states[n].claims
  {
    RunOk(states, actions, n);
  }

  // ---- a run in which a profile is forgotten, and one in which a message is --------------------------

  lemma {:induction false} Onwards(states: seq<State>, actions: seq<Action>, a: Action) returns (now: seq<State>)
    requires Runs(states, actions) && Enabled(states[|actions|], a)
    ensures now == states + [Do(states[|actions|], a)] && Runs(now, actions + [a])
  {
    hide Enabled, Do;
    now := states + [Do(states[|actions|], a)];
    forall i | 0 <= i < |actions + [a]|
      ensures Enabled(now[i], (actions + [a])[i]) && Do(now[i], (actions + [a])[i]) == now[i + 1]
    {
      if i < |actions| {
        assert Do(states[i], actions[i]) == states[i + 1];
      }
    }
  }

  /** One delivery of a message, up to the claim, by somebody nobody interrupts. */
  function FirstDelivery(m: Message): seq<Action> {
    [Accepts(0, m), Looks(0, true), Creates(0, true), Binds(0, true), Links(0, true), Claims(0, true)]
  }

  /** The first message of a conversation: claimed, its session linked and bound. */
  lemma {:induction false} Delivered(s: State, m: Message) returns (states: seq<State>)
    requires Start(s) && s.binder && Acceptable(m) && !m.command
    ensures Runs(states, FirstDelivery(m)) && states[0] == s
    ensures var r := states[6];
            && r.binder && r.pcs(0) == Starting(m, s.next) && r.links == map[m.conversation := s.next]
            && r.claims == map[m.key := 0] && r.runs == [] && r.answers == [] && r.bound == {s.next} && forall t ::
                 t != 0 ==> r.pcs(t).Idle?
  {
    states := [s];
    states := Onwards(states, [], Accepts(0, m));
    states := Onwards(states, [Accepts(0, m)], Looks(0, true));
    states := Onwards(states, [Accepts(0, m), Looks(0, true)], Creates(0, true));
    states := Onwards(states, [Accepts(0, m), Looks(0, true), Creates(0, true)], Binds(0, true));
    states := Onwards(states, [Accepts(0, m), Looks(0, true), Creates(0, true), Binds(0, true)], Links(0, true));
    states := Onwards(states, [Accepts(0, m), Looks(0, true), Creates(0, true), Binds(0, true), Links(0, true)],
        Claims(0, true));
  }

  /** Another message of the conversation after a restart reaches the session with no profile bound. */
  lemma {:induction false} AProfileIsForgotten(s: State, m: Message, again: Message)
    returns (states: seq<State>, actions: seq<Action>)
    requires Start(s) && s.binder && Acceptable(m) && Acceptable(again) && !m.command && !again.command
    requires again.conversation == m.conversation && again.key != m.key
    ensures Runs(states, actions) && states[0] == s
    ensures var r := states[|actions|]; r.binder && r.pcs(0).Starting? && r.pcs(0).session !in r.bound
  {
    states := Delivered(s, m);
    actions := FirstDelivery(m);
    states := Onwards(states, actions, Sends(0, true));
    actions := actions + [Sends(0, true)];
    states := Onwards(states, actions, Restarts);
    actions := actions + [Restarts];
    states := Onwards(states, actions, Accepts(0, again));
    actions := actions + [Accepts(0, again)];
    states := Onwards(states, actions, Looks(0, true));
    actions := actions + [Looks(0, true)];
    states := Onwards(states, actions, Claims(0, true));
    actions := actions + [Claims(0, true)];
  }

  /** A message claimed before a restart and delivered again after it is called a duplicate, and nobody ever
      started a run for it. */
  lemma {:induction false} AMessageIsLost(s: State, m: Message) returns (states: seq<State>, actions: seq<Action>)
    requires Start(s) && s.binder && Acceptable(m) && !m.command
    ensures Runs(states, actions) && states[0] == s
    ensures var r := states[|actions|];
            r.answers == [Accepted(m, s.next, true)] && r.runs == [] && forall t :: r.pcs(t).Idle?
  {
    states := Delivered(s, m);
    actions := FirstDelivery(m);
    states := Onwards(states, actions, Restarts);
    actions := actions + [Restarts];
    states := Onwards(states, actions, Accepts(0, m));
    actions := actions + [Accepts(0, m)];
    states := Onwards(states, actions, Looks(0, true));
    actions := actions + [Looks(0, true)];
    states := Onwards(states, actions, Claims(0, true));
    actions := actions + [Claims(0, true)];
  }
}
