/** The front end's Verify page: it chooses one of three views from the query
    parameters, and in the login view it is the one place that writes the
    session token. */
module VerifyPage {
  import opened Common
  import opened Session
  import opened Url
  import AuthGuard
  import AppRouter

  datatype View = EmailVerified | LoginSucceeded | InvalidLink

  /** The buttons the page can show; each exists only in one view. */
  datatype Button = ProceedToLogin | BackToLogin | CreateAccount

  predicate StatusVerified(params: map<string, string>)
  {
    "status" in params && params["status"] == "verified"
  }

  /** The `status` check comes first, then the presence of `jwt`; anything
      else is an invalid link. */
  function SelectView(params: map<string, string>): (v: View)
    ensures v == EmailVerified <==> StatusVerified(params)
    ensures v == LoginSucceeded <==> !StatusVerified(params) && "jwt" in params
    ensures v == InvalidLink <==> !StatusVerified(params) && "jwt" !in params
  {
    if StatusVerified(params) then EmailVerified
    else if "jwt" in params then LoginSucceeded
    else InvalidLink
  }

  /** `params.get("email")`: the address, or `None` when absent. */
  function EmailParam(params: map<string, string>): (v: Value)
    ensures "email" in params ==> v == Str(params["email"])
    ensures "email" !in params ==> v == Null
  {
    if "email" in params then Str(params["email"]) else Null
  }

  /** One run of the page with the given parameters; `clicked` is the button
      the visitor pressed, if any. The login view stores the decoded token
      and the address and moves on to the studio; the other two views leave
      the session alone and navigate only when one of their buttons is
      pressed. */
  method Show(s: SessionState, params: map<string, string>, clicked: Option<Button>)
    returns (next: Option<string>)
    modifies s
    ensures SelectView(params) == LoginSucceeded ==>
      && s.entries == old(s.entries)["jwt" := Str(Unquote(params["jwt"]))]["email" := EmailParam(params)]
      && next == Some(CONTENT_STUDIO_PAGE)
    ensures SelectView(params) != LoginSucceeded ==> s.entries == old(s.entries)
    ensures SelectView(params) == EmailVerified ==>
      next == if clicked == Some(ProceedToLogin) then Some(LOGIN_PAGE) else None
    ensures SelectView(params) == InvalidLink ==>
      next == if clicked == Some(BackToLogin) then Some(LOGIN_PAGE)
              else if clicked == Some(CreateAccount) then Some(REGISTER_PAGE)
              else None
  {
    match SelectView(params)
    case EmailVerified =>
      next := if clicked == Some(ProceedToLogin) then Some(LOGIN_PAGE) else None;
    case LoginSucceeded =>
      s.entries := s.entries["jwt" := Str(Unquote(params["jwt"]))];
      s.entries := s.entries["email" := EmailParam(params)];
      next := Some(CONTENT_STUDIO_PAGE);
    case InvalidLink =>
      if clicked == Some(BackToLogin) {
        next := Some(LOGIN_PAGE);
      } else if clicked == Some(CreateAccount) {
        next := Some(REGISTER_PAGE);
      } else {
        next := None;
      }
  }

  /** The redirect of `verify_login`, with the address quoted, opens the login
      view, and the page stores exactly the compact token the backend minted
      and the address it was minted for. */
  lemma StoredTokenIsMinted(jwt: string, email: string)
    requires CompactJws(jwt) && IsAscii(email)
    ensures var params := ParseQuery(SessionQuery(jwt, email));
      && SelectView(params) == LoginSucceeded
      && Unquote(params["jwt"]) == jwt
      && EmailParam(params) == Str(email)
  {
    var params := ParseQuery(SessionQuery(jwt, email));
    SessionQueryRoundTrip(jwt, email);
    assert params == map["jwt" := jwt, "email" := email];
    assert "status" !in params;
    CompactJwsUnchanged(jwt);
  }

  /** Once the login view has stored a token, the guard lets the visitor in
      and the entry script sends them to the studio. */
  lemma LoggedInPassesGuard(entries: Entries, params: map<string, string>, jwt: Value, email: Value)
    requires !AppRouter.OpensNaturally(params)
    ensures AuthGuard.Protect(entries["jwt" := jwt]["email" := email]).None?
    ensures AppRouter.Route(params, entries["jwt" := jwt]["email" := email])
            == AppRouter.SwitchTo(CONTENT_STUDIO_PAGE)
  {
  }
}
