/** Signing in to the dashboard from beginning to end, with a code and with the password. */
module SigningIn {
  import opened Wrappers
  import opened Browsers

  /** A code is good for one session within a minute, and the session for twelve hours; a second browser gets nothing
      for the code. */
  method WithACode(b: Browsers, asked: Time, traded: Time, used: Time)
      returns (code: Option<Secret>, token: Option<Secret>, again: Option<Secret>, scope: Option<Scope>)
    requires b.Valid() && asked <= traded <= used
    modifies b
    ensures b.Valid()
    ensures code.Some? ==> (token.Some? <==> traded < asked + 60 * 1_000_000_000)
    ensures again == None
    ensures token.Some? ==> scope == if used < traded + 12 * 3600 * 1_000_000_000 then Some(Control) else None
  {
    hide Ok, MakesRoom;
    token, again, scope := None, None, None;
    code := b.Pair(asked);
    if code.None? {
      return;
    }
    ghost var kept;
    token, kept := b.Redeem(code.value, traded);
    ghost var ends := traded + 12 * 3600 * 1_000_000_000;
    assert token.Some? ==>
        token.value in b.sessions && b.sessions[token.value] == ends && b.issued[token.value].kind.Session?;
    again, kept := b.Redeem(code.value, traded);
    assert token.Some? ==>
        token.value in b.sessions && b.sessions[token.value] == ends && b.issued[token.value].kind.Session?;
    if token.Some? {
      scope := b.Lookup(token.value, used);
    }
  }

  /** The password opens the dashboard for twelve hours; the one it came with opens the page for setting another, for
      a quarter of an hour. */
  method WithThePassword(b: Browsers, given: string, asked: Time, counted: Time, now: Time, used: Time)
      returns (r: Admission, scope: Option<Scope>)
    requires b.Valid() && asked <= counted <= now <= used
    modifies b
    ensures b.Valid()
    ensures r.Admitted? && old(b.password).Some? ==>
              old(b.password) == Some(given) &&
              scope == if used < now + 12 * 3600 * 1_000_000_000 then Some(Control) else None
    ensures r.Admitted? && old(b.password).None? ==>
              given == b.initial && scope == if used < now + 900 * 1_000_000_000 then Some(Setup) else None
  {
    ghost var kept;
    r, kept := b.Login(given, asked, counted, now);
    scope := None;
    if r.Admitted? {
      scope := b.Lookup(r.token, used);
    }
  }
}
