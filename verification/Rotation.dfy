/** Several processes sharing one sign-in, step by step.

    Each step is one stretch of code between two points where another thread or process can
    run: a critical section of the in-memory lock, taking the lock file, or the service
    answering a request. Requests reach the service at most once and answers are not lost;
    the file is replaced whole.
  */
module Rotation {
  import opened Wrappers
  import opened Credentials

  type Process = nat

  datatype Thread = Thread(process: Process, id: nat)

  datatype Call =
    | Access
    | Refreshes(rejected: Token)
    | Records(code: string, message: string)
    | SignsOut

  datatype Pc =
    | Idle
    | Wanting(call: Call)
    | Holding(call: Call)
    | Sending(call: Call, presented: Token)
    | Answered(call: Call, presented: Token, reply: Reply)
    | Leaving(call: Call)
    | GivingUp(call: Call, signInAgain: bool)
    | Revoking(presented: Token)

  /** A successful exchange: the access token it replaced and the one it brought. */
  datatype Exchanged = Exchanged(replaced: Token, access: Token)

  datatype Answer = Answer(call: Call, token: Token)

  datatype State = State(
    file: Record,
    recs: Process -> Record,
    pcs: Thread -> Pc,
    lock: Option<Thread>,
    latest: Token,
    rotated: set<Token>,
    alive: bool,
    next: Token,
    first: Token,
    exchanges: seq<Exchanged>,
    handed: set<Token>,
    answers: seq<Answer>)

  datatype Action =
    | Opens(process: Process)
    | CallsAccess(t: Thread, now: int)
    | Calls(t: Thread, call: Call)
    | Locks(t: Thread)
    | Reads(t: Thread, now: int)
    | Exchanges(t: Thread, reply: Reply)
    | Takes(t: Thread, now: int)
    | Revokes(t: Thread, confirmed: bool)
    | Returns(t: Thread, now: int)
    | Invalidates

  ghost predicate Start(s: State) {
    && s.lock == None && s.exchanges == [] && s.handed == {} && s.answers == [] && s.rotated == {}
    && (forall p :: s.recs(p) == s.file)
    && (forall t :: s.pcs(t) == Idle)
    && s.file.refresh in {0, s.latest} && s.latest < s.next
    && s.first == s.file.access < s.next
  }

  predicate Presents(pc: Pc) {
    pc.Sending? || pc.Answered? || pc.Revoking?
  }

  predicate Holds(pc: Pc) {
    pc.Holding? || Presents(pc)
  }

  /** What the service may answer: it grants only against the latest refresh token it issued, with
      tokens nobody has seen, and may refuse or be unreachable at any time. */
  ghost predicate MayAnswer(s: State, presented: Token, reply: Reply) {
    reply.Granted? ==>
      && s.alive && presented == s.latest && reply.access == s.next
      && reply.refresh in {0, s.next + 1}
  }

  ghost predicate Enabled(s: State, a: Action) {
    match a
    case Opens(_) => true
    case CallsAccess(t, _) => s.pcs(t).Idle?
    case Calls(t, call) => s.pcs(t).Idle? && !call.Access?
        && (call.Refreshes? ==> call.rejected == 0 || call.rejected in s.handed)
    case Locks(t) => s.pcs(t).Wanting? && s.lock == None
    case Reads(t, _) => s.pcs(t).Holding?
    case Exchanges(t, reply) => s.pcs(t).Sending? && MayAnswer(s, s.pcs(t).presented, reply)
    case Takes(t, _) => s.pcs(t).Answered?
    case Revokes(t, _) => s.pcs(t).Revoking?
    case Returns(t, _) => s.pcs(t).Leaving? || s.pcs(t).GivingUp?
    case Invalidates => true
  }

  function Goes(s: State, t: Thread, pc: Pc): State {
    s.(pcs := (u: Thread) => if u == t then pc else s.pcs(u))
  }

  function Has(s: State, p: Process, rec: Record): State {
    s.(recs := (q: Process) => if q == p then rec else s.recs(q))
  }

  /** `t` leaves with `rec` in memory and `stored` on disk. */
  function Releases(s: State, t: Thread, rec: Record, stored: Record, pc: Pc): State {
    Goes(Has(s, t.process, rec), t, pc).(file := stored, lock := None)
  }

  function HandsOut(s: State, t: Thread, call: Call, token: Token): State {
    Goes(s, t, Idle).(handed := s.handed + {token}, answers := s.answers + [Answer(call, token)])
  }

  function Asks(s: State, t: Thread, now: int): State {
    var rec := s.recs(t.process);
    if !Usable(rec) then s
    else if Expiring(rec, now) then Goes(s, t, Wanting(Access))
    else HandsOut(s, t, Access, rec.access)
  }

  function Starts(s: State, t: Thread, call: Call): State {
    if call.Refreshes? && !SignedIn(s.recs(t.process)) then s else Goes(s, t, Wanting(call))
  }

  function WantOf(call: Call, now: int): Want {
    match call
    case Refreshes(rejected) => Rejected(rejected)
    case _ => Soon(now)
  }

  function Reading(s: State, t: Thread, call: Call, now: int): State {
    match call
    case Records(code, message) =>
      var rec := s.file.(code := code, message := Credentials.Cut(message));
      Releases(s, t, rec, rec, Idle)
    case SignsOut =>
      if !SignedIn(s.file) then Releases(s, t, s.file, s.file, Idle)
      else Goes(Has(s, t.process, s.file), t, Revoking(s.file.refresh))
    case _ =>
      var want := WantOf(call, now);
      var rec := AfterRead(s.file, want);
      match Decide(s.file, want)
      case Settled => Releases(s, t, rec, rec, Leaving(call))
      case NoRefreshToken => Releases(s, t, rec, rec, GivingUp(call, true))
      case Exchange(presented) => Goes(Has(s, t.process, rec), t, Sending(call, presented))
  }

  function Answering(s: State, t: Thread, call: Call, presented: Token, reply: Reply): State {
    var now := Goes(s, t, Answered(call, presented, reply));
    if !Success(reply) then now
    else
      now.(next := s.next + 2,
           latest := if reply.refresh != 0 then reply.refresh else s.latest,
           rotated := if reply.refresh != 0 then s.rotated + {presented} else s.rotated,
           exchanges := s.exchanges + [Exchanged(s.recs(t.process).access, reply.access)])
  }

  function Taking(s: State, t: Thread, call: Call, presented: Token, reply: Reply, now: int): State {
    var taken := AfterReply(s.recs(t.process), s.file, presented, reply, now);
    Releases(s, t, taken.rec, taken.stored,
             if taken.outcome.Fine? then Leaving(call) else GivingUp(call, taken.outcome.signInAgain))
  }

  function Returning(s: State, t: Thread, pc: Pc, now: int): State
    requires pc.Leaving? || pc.GivingUp?
  {
    var rec := s.recs(t.process);
    if pc.Leaving? && pc.call.Access? && Usable(rec) then HandsOut(s, t, pc.call, rec.access)
    else if pc.Leaving? && pc.call.Refreshes? && SignedIn(rec) then HandsOut(s, t, pc.call, rec.access)
    else if pc.GivingUp? && pc.call.Access? && !pc.signInAgain && rec.access != 0 && now < rec.expiresAt
      then HandsOut(s, t, pc.call, rec.access)
    else Goes(s, t, Idle)
  }

  function Do(s: State, a: Action): State
    requires Enabled(s, a)
  {
    match a
    case Opens(p) => Has(s, p, s.file)
    case CallsAccess(t, now) => Asks(s, t, now)
    case Calls(t, call) => Starts(s, t, call)
    case Locks(t) => Goes(s, t, Holding(s.pcs(t).call)).(lock := Some(t))
    case Reads(t, now) => Reading(s, t, s.pcs(t).call, now)
    case Exchanges(t, reply) => Answering(s, t, s.pcs(t).call, s.pcs(t).presented, reply)
    case Takes(t, now) => Taking(s, t, s.pcs(t).call, s.pcs(t).presented, s.pcs(t).reply, now)
    case Revokes(t, confirmed) =>
      var rec := Cleared(s.recs(t.process), "", "");
      Releases(s, t, rec, rec, Idle).(alive := s.alive && !(confirmed && s.pcs(t).presented == s.latest))
    case Returns(t, now) => Returning(s, t, s.pcs(t), now)
    case Invalidates => s.(alive := false)
  }

  /** The states a run goes through, from a start, one action at a time. */
  ghost predicate Run(states: seq<State>, actions: seq<Action>) {
    && |states| == |actions| + 1 && Start(states[0])
    && forall i :: 0 <= i < |actions| ==> Enabled(states[i], actions[i]) && Do(states[i], actions[i]) == states[i + 1]
  }
}
