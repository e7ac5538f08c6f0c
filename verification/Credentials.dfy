/** The one sign-in record, and what a refresh does to it under the lock file.

    Tokens are numbers; zero is the empty token. Times are whole seconds.
  */
module Credentials {
  import opened Wrappers

  type Token = nat

  /** The part of the record file that a refresh reads or writes. `granted` is whether the
      scopes include plan usage. */
  datatype Record = Record(access: Token, refresh: Token, expiresAt: int, granted: bool, code: string, message: string)

  const REFRESH_SKEW := 300
  const DEFAULT_LIFETIME := 3600

  predicate SignedIn(r: Record) {
    r.access != 0 || r.refresh != 0
  }

  predicate Usable(r: Record) {
    SignedIn(r) && r.granted
  }

  predicate Expiring(r: Record, now: int) {
    r.access == 0 || now + REFRESH_SKEW > r.expiresAt
  }

  /** Why a refresh is asked for. */
  datatype Want = Soon(now: int) | Rejected(token: Token)

  predicate Needed(want: Want, r: Record) {
    match want
    case Soon(now) => Expiring(r, now)
    case Rejected(token) => r.access == 0 || r.access == token
  }

  /** The token endpoint's answer. A grant without an access token is a refusal. */
  datatype Reply =
    | Granted(access: Token, refresh: Token, lifetime: int, scope: Option<bool>)
    | Refused(error: string)
    | Unreachable

  predicate Success(reply: Reply) {
    reply.Granted? && reply.access != 0
  }

  const TERMINAL: set<string> := {
    "invalid_grant", "invalid_refresh_token", "token_expired",
    "refresh_token_expired", "refresh_token_invalidated", "refresh_token_reused"}

  predicate EndsTheSignIn(error: string) {
    error in TERMINAL
  }

  datatype Decision = Settled | Exchange(presented: Token) | NoRefreshToken

  datatype Outcome = Fine | Failed(signInAgain: bool)

  function Applied(r: Record, reply: Reply, now: int): Record
    requires Success(reply)
  {
    r.(access := reply.access,
       refresh := if reply.refresh != 0 then reply.refresh else r.refresh,
       expiresAt := now + (if reply.lifetime <= 0 then DEFAULT_LIFETIME else reply.lifetime),
       granted := if reply.scope.Some? then reply.scope.value else r.granted)
  }

  function Cleared(r: Record, code: string, message: string): Record {
    Record(0, 0, 0, false, code, message)
  }

  /** What a refresher that has just read `stored` under the lock decides. */
  function Decide(stored: Record, want: Want): Decision {
    if !SignedIn(stored) || !Needed(want, stored) then Settled
    else if stored.refresh == 0 then NoRefreshToken
    else Exchange(stored.refresh)
  }

  const REFRESH_TOKEN_MISSING := "refresh_token_missing"
  const NO_REFRESH_TOKEN := "the sign-in has no refresh token"
  const NO_LONGER_ACCEPTED := "ChatGPT no longer accepts this sign-in"

  function AfterRead(stored: Record, want: Want): Record {
    if Decide(stored, want).NoRefreshToken? then Cleared(stored, REFRESH_TOKEN_MISSING, NO_REFRESH_TOKEN)
    else stored
  }

  function ErrorOf(reply: Reply): string {
    match reply
    case Refused(error) => error
    case _ => ""
  }

  datatype Taken = Taken(rec: Record, stored: Record, outcome: Outcome)

  /** What the answer to `presented` does to the record in memory and on disk. */
  function AfterReply(rec: Record, stored: Record, presented: Token, reply: Reply, now: int): Taken {
    if Success(reply) then
      var renewed := Applied(rec, reply, now).(code := "", message := "");
      Taken(renewed, renewed, Fine)
    else if EndsTheSignIn(ErrorOf(reply)) then
      if stored.refresh != presented then Taken(stored, stored, Fine)
      else
        var cleared := Cleared(rec, ErrorOf(reply), NO_LONGER_ACCEPTED);
        Taken(cleared, cleared, Failed(true))
    else Taken(rec, stored, Failed(false))
  }

  function Cut(message: string): string {
    if |message| > 300 then message[..300] else message
  }

  class RecordFile {
    var stored: Record

    constructor (stored: Record)
      ensures this.stored == stored
    {
      this.stored := stored;
    }
  }

  /** One process's copy of the sign-in. Each method runs with the lock file held. */
  class Auth {
    const file: RecordFile
    var rec: Record

    constructor (file: RecordFile)
      ensures this.file == file && rec == file.stored
    {
      this.file := file;
      rec := file.stored;
    }

    method ApplyTokens(reply: Reply, now: int)
      requires Success(reply)
      modifies this
      ensures rec == Applied(old(rec), reply, now)
    {
      rec := rec.(access := reply.access);
      if reply.refresh != 0 {
        rec := rec.(refresh := reply.refresh);
      }
      var lifetime := reply.lifetime;
      if lifetime <= 0 {
        lifetime := DEFAULT_LIFETIME;
      }
      rec := rec.(expiresAt := now + lifetime);
      if reply.scope.Some? {
        rec := rec.(granted := reply.scope.value);
      }
    }

    method ClearTokens(code: string, message: string)
      modifies this, file
      ensures rec == file.stored == Cleared(old(rec), code, message)
    {
      rec := rec.(access := 0, refresh := 0, expiresAt := 0, granted := false);
      rec := rec.(code := code, message := message);
      file.stored := rec;
    }

    /** Re-reads the file and decides. */
    method BeginRefresh(want: Want) returns (decision: Decision)
      modifies this, file
      ensures decision == Decide(old(file.stored), want)
      ensures rec == file.stored == AfterRead(old(file.stored), want)
      // what is presented is the stored refresh token, when the access token is missing, about to run out or refused
      ensures decision.Exchange? <==>
                old(file.stored.refresh) != 0 &&
                match want
                case Soon(now) => old(file.stored.access) == 0 || now + 300 > old(file.stored.expiresAt)
                case Rejected(token) => old(file.stored.access) == 0 || old(file.stored.access) == token
      ensures decision.Exchange? ==> decision.presented == old(file.stored.refresh) && rec == old(file.stored)
      // a sign-in that cannot be renewed is given up, in memory and on disk
      ensures decision.NoRefreshToken? <==>
                old(file.stored.refresh) == 0 && old(file.stored.access) != 0 &&
                match want
                case Soon(now) => now + 300 > old(file.stored.expiresAt)
                case Rejected(token) => old(file.stored.access) == token
      ensures decision.NoRefreshToken? ==> rec.access == 0 && rec.refresh == 0 && rec.code == "refresh_token_missing"
      ensures decision.Settled? ==> rec == old(file.stored)
    {
      rec := file.stored;
      if !SignedIn(rec) || !Needed(want, rec) {
        return Settled;
      }
      if rec.refresh == 0 {
        ClearTokens(REFRESH_TOKEN_MISSING, NO_REFRESH_TOKEN);
        return NoRefreshToken;
      }
      return Exchange(rec.refresh);
    }

    /** Takes the answer to the refresh token that was presented. */
    method FinishRefresh(presented: Token, reply: Reply, now: int) returns (outcome: Outcome)
      modifies this, file
      ensures Taken(rec, file.stored, outcome) == AfterReply(old(rec), old(file.stored), presented, reply, now)
      // a grant is on disk as it came, good for as long as it says or an hour
      ensures reply.Granted? && reply.access != 0 ==>
                && outcome == Fine && rec == file.stored && rec.access == reply.access && rec.code == ""
                     && rec.message == ""
                && rec.refresh == (if reply.refresh != 0 then reply.refresh else old(rec.refresh))
                && rec.expiresAt == now + (if reply.lifetime > 0 then reply.lifetime else 3600)
                && rec.granted == (if reply.scope.Some? then reply.scope.value else old(rec.granted))
      // the codes that end a sign-in clear it, unless somebody has stored another token
      ensures outcome == Failed(true) <==>
                && old(file.stored.refresh) == presented && reply.Refused?
                && (|| reply.error == "invalid_grant" || reply.error == "invalid_refresh_token"
                    || reply.error == "token_expired" || reply.error == "refresh_token_expired"
                    || reply.error == "refresh_token_invalidated" || reply.error == "refresh_token_reused")
      ensures outcome == Failed(true) ==>
                rec == file.stored && rec.access == 0 && rec.refresh == 0 && !rec.granted && rec.code == reply.error
      ensures outcome == Failed(false) ==> rec == old(rec) && file.stored == old(file.stored)
    {
      if reply.Granted? && reply.access != 0 {
        ApplyTokens(reply, now);
        rec := rec.(code := "", message := "");
        file.stored := rec;
        return Fine;
      }
      if EndsTheSignIn(ErrorOf(reply)) {
        if file.stored.refresh != presented {
          rec := file.stored;
          return Fine;
        }
        ClearTokens(ErrorOf(reply), NO_LONGER_ACCEPTED);
        return Failed(true);
      }
      return Failed(false);
    }

    method RecordError(code: string, message: string)
      modifies this, file
      ensures rec == file.stored == old(file.stored).(code := code, message := Cut(message))
      ensures rec.message <= message && |rec.message| == (if |message| <= 300 then |message| else 300)
    {
      rec := file.stored;
      var short := message;
      if |short| > 300 {
        short := short[..300];
      }
      if rec.code == code && rec.message == short {
        return;
      }
      rec := rec.(code := code, message := short);
      file.stored := rec;
    }

    method ForgetTokens()
      modifies this, file
      ensures rec == file.stored == Cleared(old(rec), "", "")
      ensures rec.access == 0 && rec.refresh == 0 && !rec.granted && rec.code == "" && rec.message == ""
    {
      rec := rec.(access := 0, refresh := 0, expiresAt := 0, granted := false);
      rec := rec.(code := "", message := "");
      file.stored := rec;
    }
  }
}
