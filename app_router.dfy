/** The routing decision of the entry script `app.py`. It only reads the
    query parameters and the session; it writes nothing. */
module AppRouter {
  import opened Session

  /** What the entry script does: stop and let the requested page render, or
      switch to another page. */
  datatype Decision = Stop | SwitchTo(page: string)

  /** The `page` query parameter asks for a page that opens on its own. */
  predicate OpensNaturally(params: map<string, string>)
  {
    "page" in params && params["page"] in {"verify", "login"}
  }

  /** The entry script: the `verify` and `login` pages open as they are;
      otherwise a session holding a `jwt` key goes to the studio, and every
      other visitor to the landing page. */
  function Route(params: map<string, string>, session: Entries): (d: Decision)
    ensures d == Stop <==> OpensNaturally(params)
    ensures d == SwitchTo(CONTENT_STUDIO_PAGE) <==> !OpensNaturally(params) && "jwt" in session
    ensures d == SwitchTo(HOME_PAGE) <==> !OpensNaturally(params) && "jwt" !in session
  {
    if OpensNaturally(params) then Stop
    else if "jwt" in session then SwitchTo(CONTENT_STUDIO_PAGE)
    else SwitchTo(HOME_PAGE)
  }

  /** Only the presence of the `jwt` key matters to the route, never its
      value nor any other key. */
  lemma RouteSeesOnlyJwtKey(params: map<string, string>, s1: Entries, s2: Entries)
    requires ("jwt" in s1) == ("jwt" in s2)
    ensures Route(params, s1) == Route(params, s2)
  {
  }

  /** After Logout has emptied the session, the entry script sends the
      visitor to the landing page unless a page that opens on its own was
      asked for. */
  lemma LoggedOutGoesHome(params: map<string, string>)
    ensures Route(params, map[]) == if OpensNaturally(params) then Stop else SwitchTo(HOME_PAGE)
  {
  }
}
