/** `protect()`, the guard the studio page calls before anything else. It
    reads the session and never writes it. */
module AuthGuard {
  import opened Common
  import opened Session

  /** A session without a `jwt` key is sent to the Login page; a session
      holding one, whatever its value, stays on the page. */
  function Protect(session: Entries): (next: Option<string>)
    ensures next.None? <==> "jwt" in session
    ensures next.Some? ==> next.value == LOGIN_PAGE
  {
    if "jwt" !in session then Some(LOGIN_PAGE) else None
  }

  /** The guard never checks the token: any value stored under `jwt` passes. */
  lemma AnyJwtPasses(session: Entries, v: Value)
    ensures Protect(session["jwt" := v]).None?
  {
  }

  /** After Logout has emptied the session, the guard always redirects. */
  method LogoutThenProtect(s: SessionState) returns (next: Option<string>)
    modifies s
    ensures s.entries == map[]
    ensures next == Some(LOGIN_PAGE)
  {
    var _ := s.Logout();
    next := Protect(s.entries);
  }
}
