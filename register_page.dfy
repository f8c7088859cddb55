/** The Register page: the checks run on the two input fields before any
    request is sent, and how the answer of the backend's `/register` is
    shown. */
module RegisterPage {
  import opened Common
  import Auth

  const MISSING_FIELDS := "Please provide both your name and email address"
  const INVALID_EMAIL := "Please enter a valid email address"
  const SHORT_NAME := "Please enter your full name"
  const DEFAULT_FAILURE := "Registration failed. Please try again."
  const TIMED_OUT := "Request timed out. Please try again."
  const NO_CONNECTION := "Unable to connect to the service. Check your connection."
  const SERVICE_UNAVAILABLE := "Unable to connect to the authentication service. Please try again later."

  /** The first check the two fields fail, in the page's order, or `None`
      when they pass them all. */
  function ValidateRegistration(name: string, email: string): (warning: Option<string>)
    ensures warning == Some(MISSING_FIELDS) <==> name == "" || email == ""
    ensures warning == Some(INVALID_EMAIL) <==>
      name != "" && email != "" && ('@' !in email || '.' !in email)
    ensures warning == Some(SHORT_NAME) <==>
      name != "" && email != "" && '@' in email && '.' in email && |Strip(name)| < 2
  {
    if name == "" || email == "" then Some(MISSING_FIELDS)
    else if '@' !in email || '.' !in email then Some(INVALID_EMAIL)
    else if |Strip(name)| < 2 then Some(SHORT_NAME)
    else None
  }

  /** The fields pass exactly when both are non-empty, the address holds an
      `@` and a `.`, and the name has at least two characters once stripped. */
  lemma ValidIff(name: string, email: string)
    ensures ValidateRegistration(name, email).None? <==>
      name != "" && '@' in email && '.' in email && |Strip(name)| >= 2
  {
  }

  /** A name made only of spaces passes the first check and is caught by the
      full-name check. */
  lemma {:induction false} BlankNameIsTooShort(name: string, email: string)
    requires name != [] && forall i :: 0 <= i < |name| ==> IsSpace(name[i])
    requires '@' in email && '.' in email
    ensures ValidateRegistration(name, email) == Some(SHORT_NAME)
  {
    assert LeadingSpaces(name) == |name|;
  }

  /** The body `res.json()` finds: an object with or without `detail`,
      other JSON, or text that is not JSON at all. */
  datatype Json = Object(detail: Option<string>) | OtherJson | NotJson

  datatype HttpReply = HttpReply(status: int, text: string, json: Json)

  /** What `requests.post` gives the page. */
  datatype Transport = Answered(reply: HttpReply) | Timeout | ConnectionError | OtherRequestError

  /** What the page then shows. `Crashed` is the `AttributeError` of calling
      `.get` on JSON that is not an object, which nothing catches. */
  datatype Shown = Created | AlreadyExists | ErrorMessage(message: string) | Crashed

  /** The page after pressing "Create Account": a warning when a check fails
      (and no request), otherwise the classified answer. */
  datatype Screen = Warning(message: string) | Submitted(shown: Shown)

  predicate IsDuplicate(reply: HttpReply)
  {
    reply.status == 400 && Contains("already exists", reply.text)
  }

  /** The branches on the answer: 200 is success, a 400 mentioning "already
      exists" is a duplicate, anything else shows `detail` or the default
      message; a body that is not JSON raises a `RequestException` and the
      generic service message is shown. */
  function Classify(t: Transport): (shown: Shown)
    ensures t.Answered? && t.reply.status == 200 ==> shown == Created
    ensures shown == AlreadyExists <==> t.Answered? && t.reply.status != 200 && IsDuplicate(t.reply)
    ensures t.Answered? && t.reply.status != 200 && !IsDuplicate(t.reply) ==>
      match t.reply.json
      case Object(detail) => shown == ErrorMessage(if detail.Some? then detail.value else DEFAULT_FAILURE)
      case OtherJson => shown == Crashed
      case NotJson => shown == ErrorMessage(SERVICE_UNAVAILABLE)
    ensures t.Timeout? ==> shown == ErrorMessage(TIMED_OUT)
    ensures t.ConnectionError? ==> shown == ErrorMessage(NO_CONNECTION)
    ensures t.OtherRequestError? ==> shown == ErrorMessage(SERVICE_UNAVAILABLE)
  {
    match t
    case Timeout => ErrorMessage(TIMED_OUT)
    case ConnectionError => ErrorMessage(NO_CONNECTION)
    case OtherRequestError => ErrorMessage(SERVICE_UNAVAILABLE)
    case Answered(reply) =>
      if reply.status == 200 then Created
      else if IsDuplicate(reply) then AlreadyExists
      else match reply.json
        case Object(detail) => ErrorMessage(if detail.Some? then detail.value else DEFAULT_FAILURE)
        case OtherJson => Crashed
        case NotJson => ErrorMessage(SERVICE_UNAVAILABLE)
  }

  /** Pressing "Create Account". `send` is what the request would return. */
  function CreateAccount(name: string, email: string, send: Transport): (screen: Screen)
    ensures ValidateRegistration(name, email).Some? ==>
      screen == Warning(ValidateRegistration(name, email).value)
    ensures ValidateRegistration(name, email).None? ==> screen == Submitted(Classify(send))
  {
    match ValidateRegistration(name, email)
    case Some(w) => Warning(w)
    case None => Submitted(Classify(send))
  }

  /** When a check fails no request is sent: what the request would have
      returned makes no difference to the page. */
  lemma NoRequestOnWarning(name: string, email: string, t1: Transport, t2: Transport)
    requires ValidateRegistration(name, email).Some?
    ensures CreateAccount(name, email, t1) == CreateAccount(name, email, t2)
  {
  }

  /** The JSON text FastAPI sends for an `HTTPException` with this detail. */
  function ErrorBody(detail: string): string
  {
    "{\"detail\":\"" + detail + "\"}"
  }

  /** The backend's duplicate-registration error, as FastAPI sends it, is
      shown as an existing account. */
  lemma BackendDuplicateIsRecognised(cfg: Auth.Config, st: Auth.Store, name: string, email: string, now: int)
    requires email in st.users
    ensures var err := Auth.RegisterStep(cfg, st, name, email, now).response.error;
      Classify(Answered(HttpReply(err.status, ErrorBody(err.detail), Object(Some(err.detail)))))
      == AlreadyExists
  {
    var text := ErrorBody("User already exists");
    assert text == "{\"detail\":\"User " + "already exists" + "\"}";
    ContainsInfix("{\"detail\":\"User ", "already exists", "\"}");
  }
}
