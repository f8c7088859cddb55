/** Streamlit's `st.session_state`: one dictionary per browser session that
    every page of the front end reads and writes. The values the pages store
    in it are modelled by `Value`; the pages they switch to by their paths. */
module Session {

  /** One of the two refined prompts the model proposes (`{"title", "prompt"}`). */
  datatype Prompt = Prompt(title: string, text: string)

  /** A saved set of content preferences, as the templates page stores it. */
  datatype Template = Template(
    name: string, contentType: Value, tone: Value, audience: Value, purpose: Value, wordLimit: Value)

  /** A value held under a session key: a string, `None`, a number, a flag,
      or one of the two lists the studio keeps. */
  datatype Value =
    | Null
    | Str(str: string)
    | Int(num: int)
    | Bool(flag: bool)
    | Prompts(prompts: seq<Prompt>)
    | Templates(templates: seq<Template>)

  type Entries = map<string, Value>

  const LOGIN_PAGE := "pages/Login.py"
  const HOME_PAGE := "pages/Home.py"
  const CONTENT_STUDIO_PAGE := "pages/Content_Studio.py"
  const REGISTER_PAGE := "pages/Register.py"

  /** The session dictionary of one browser session. */
  class SessionState {
    var entries: Entries

    /** A new browser session starts with an empty dictionary. */
    constructor ()
      ensures entries == map[]
    {
      entries := map[];
    }

    /** The Logout button of the studio's sidebar: every key present is
        deleted, one at a time, and the browser is sent to the Login page. */
    method Logout() returns (next: string)
      modifies this
      ensures entries == map[]
      ensures next == LOGIN_PAGE
    {
      var keys := entries.Keys;
      while keys != {}
        invariant entries.Keys == keys
        decreases |keys|
      {
        var key :| key in keys;
        entries := map k | k in entries && k != key :: entries[k];
        keys := keys - {key};
      }
      next := LOGIN_PAGE;
    }
  }
}
