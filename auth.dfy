/** The passwordless flow of `auth.py`: registration, e-mail verification,
    magic-link login and session issue, over the `users` table and the
    outbox of sent messages. Each handler is first stated as a function from
    the old store to the new store and the HTTP reply; the class
    `AuthService` holds the table and the outbox as fields and its methods
    are proved to perform exactly those steps. */
module Auth {
  import opened Common
  import opened Jose
  import MagicLink
  import SessionJwt
  import Email
  import opened Models

  /** The environment the backend reads at import time. */
  datatype Config = Config(secretKey: Key, appUrl: string, frontendUrl: string)

  /** `if not X`: a variable that is unset or empty counts as missing. */
  predicate Present(v: Option<string>)
  {
    v.Some? && v.value != ""
  }

  /** The import-time checks: `magic_link.py` (and `jwt.py`) refuse to load
      without `SECRET_KEY`, then `auth.py` refuses to load without both URLs. */
  function LoadConfig(secretKey: Option<string>, appUrl: Option<string>, frontendUrl: Option<string>)
    : (r: Result<Config, string>)
    ensures r.Ok? <==> Present(secretKey) && Present(appUrl) && Present(frontendUrl)
    ensures r.Ok? ==> r.value == Config(secretKey.value, appUrl.value, frontendUrl.value)
    ensures !Present(secretKey) ==> r == Err("SECRET_KEY environment variable is not set")
    ensures Present(secretKey) && r.Err? ==> r == Err("APP_URL or FRONTEND_URL not set")
  {
    if !Present(secretKey) then Err("SECRET_KEY environment variable is not set")
    else if !Present(appUrl) || !Present(frontendUrl) then Err("APP_URL or FRONTEND_URL not set")
    else Ok(Config(secretKey.value, appUrl.value, frontendUrl.value))
  }

  /** A link in a message: the text `url` followed by the token. */
  datatype Link = Link(url: string, token: Token)

  type Outbox = seq<Email.Mail<Link>>

  /** What the handlers read and write: the `users` table keyed by address,
      the next primary key, and every message handed to the mail provider. */
  datatype Store = Store(users: map<string, User>, nextId: int, outbox: Outbox)

  /** A successful reply: a JSON message, a redirect, or the redirect of
      `verify_login` that carries the session token and the address. */
  datatype Reply = Message(text: string) | Redirect(url: string) | SessionRedirect(frontendUrl: string, jwt: Token, email: string)

  type Response = Result<Reply, HttpError>

  datatype Outcome = Outcome(store: Store, response: Response)

  ghost predicate StoreValid(st: Store)
  {
    UsersTable(st.users, st.nextId)
  }

  function VerifyLinkUrl(cfg: Config): string
  {
    cfg.appUrl + "/verify?token="
  }

  function LoginLinkUrl(cfg: Config): string
  {
    cfg.appUrl + "/login/verify?token="
  }

  /** `register(name, email)` at time `now`. */
  function RegisterStep(cfg: Config, st: Store, name: string, email: string, now: int): (o: Outcome)
    ensures o.response.Err? <==> email in st.users
    ensures email in st.users ==> o == Outcome(st, Err(HttpError(400, "User already exists")))
    ensures email !in st.users ==>
      && o.response == Ok(Message("Verification email sent"))
      && o.store.users == st.users[email := NewUser(st.nextId, name, email)]
      && o.store.nextId == st.nextId + 1
      && |o.store.outbox| == |st.outbox| + 1 && o.store.outbox[..|st.outbox|] == st.outbox
  {
    if email in st.users then Outcome(st, Err(HttpError(400, "User already exists")))
    else
      var users := st.users[email := NewUser(st.nextId, name, email)];
      var token := MagicLink.CreateMagicToken(cfg.secretKey, email, "verify", now);
      var sent := Email.SendMagicLink(st.outbox, email, Link(VerifyLinkUrl(cfg), token), "verify");
      Outcome(Store(users, st.nextId + 1, sent.value), Ok(Message("Verification email sent")))
  }

  /** The message a successful registration sends: addressed to the new
      user, with the verification subject, linking to the verification
      endpoint with a `verify` token for that address. */
  lemma RegisterSendsVerifyLink(cfg: Config, st: Store, name: string, email: string, now: int)
    requires email !in st.users
    ensures var o := RegisterStep(cfg, st, name, email, now);
      var m := o.store.outbox[|st.outbox|];
      && m.sender == Email.FROM_EMAIL && m.to == email
      && m.subject == "Verify your email to continue" && m.buttonText == "Verify Email"
      && m.link == Link(VerifyLinkUrl(cfg), MagicLink.CreateMagicToken(cfg.secretKey, email, "verify", now))
  {
  }

  /** The "expires in 10 minutes" notice of a sent mail agrees with the
      lifetime of the token its link carries. */
  lemma MailNoticeMatchesToken(cfg: Config, st: Store, name: string, email: string, now: int)
    requires email !in st.users
    ensures var m := RegisterStep(cfg, st, name, email, now).store.outbox[|st.outbox|];
      m.link.token.claims.exp == Some(now + 60 * m.noticeMinutes)
  {
    RegisterSendsVerifyLink(cfg, st, name, email, now);
  }

  /** The same agreement for the message `login` sends. */
  lemma LoginNoticeMatchesToken(cfg: Config, st: Store, email: string, now: int)
    requires email in st.users && st.users[email].isVerified
    ensures var m := LoginStep(cfg, st, email, now).store.outbox[|st.outbox|];
      m.link.token.claims.exp == Some(now + 60 * m.noticeMinutes)
  {
  }

  /** The `try` block shared by `verify_email` and `verify_login`: the
      subject of a token that verifies for `purpose`, or `None` for every way
      it can fail (decoding, purpose, or a payload without `sub`). */
  function TokenSubject(key: Key, token: Token, purpose: string, now: int): (r: Option<string>)
    ensures r.Some? <==> MagicLink.VerifyMagicToken(key, token, purpose, now).Ok? && token.claims.sub.Some?
    ensures r.Some? ==> r == token.claims.sub && token.claims.purpose == Some(purpose)
  {
    match MagicLink.VerifyMagicToken(key, token, purpose, now)
    case Err(_) => None
    case Ok(payload) => payload.sub
  }

  /** `verify_email(token)` at time `now`. */
  function VerifyEmailStep(cfg: Config, st: Store, token: Token, now: int): (o: Outcome)
    ensures o.response.Err? ==> o.store == st
    ensures TokenSubject(cfg.secretKey, token, "verify", now).None? ==>
      o.response == Err(HttpError(400, MagicLink.INVALID_OR_EXPIRED))
    ensures TokenSubject(cfg.secretKey, token, "verify", now).Some? && token.claims.sub.value !in st.users ==>
      o == Outcome(st, Err(HttpError(404, "User not found")))
    ensures o.response.Ok? <==>
      TokenSubject(cfg.secretKey, token, "verify", now).Some? && token.claims.sub.value in st.users
    ensures o.response.Ok? ==>
      var e := token.claims.sub.value;
      && o.response.value == Redirect(cfg.frontendUrl + "/Verify?status=verified")
      && o.store == st.(users := st.users[e := st.users[e].(isVerified := true)])
  {
    match TokenSubject(cfg.secretKey, token, "verify", now)
    case None => Outcome(st, Err(HttpError(400, MagicLink.INVALID_OR_EXPIRED)))
    case Some(email) =>
      if email !in st.users then Outcome(st, Err(HttpError(404, "User not found")))
      else
        var user := st.users[email];
        Outcome(st.(users := st.users[email := user.(isVerified := true)]),
                Ok(Redirect(cfg.frontendUrl + "/Verify?status=verified")))
  }

  /** `login(email)` at time `now`. */
  function LoginStep(cfg: Config, st: Store, email: string, now: int): (o: Outcome)
    ensures o.response.Ok? <==> email in st.users && st.users[email].isVerified
    ensures email !in st.users ==> o == Outcome(st, Err(HttpError(404, "User not registered")))
    ensures email in st.users && !st.users[email].isVerified ==>
      o == Outcome(st, Err(HttpError(400, "Email not verified")))
    ensures o.response.Ok? ==>
      && o.response.value == Message("Login link sent")
      && o.store.users == st.users && o.store.nextId == st.nextId
      && |o.store.outbox| == |st.outbox| + 1 && o.store.outbox[..|st.outbox|] == st.outbox
      && o.store.outbox[|st.outbox|]
         == Email.Mail(Email.FROM_EMAIL, email, "Login to your account", "Login Now",
                       Link(LoginLinkUrl(cfg), MagicLink.CreateMagicToken(cfg.secretKey, email, "login", now)),
                       Email.NOTICE_MINUTES)
  {
    if email !in st.users then Outcome(st, Err(HttpError(404, "User not registered")))
    else if !st.users[email].isVerified then Outcome(st, Err(HttpError(400, "Email not verified")))
    else
      var token := MagicLink.CreateMagicToken(cfg.secretKey, email, "login", now);
      var sent := Email.SendMagicLink(st.outbox, email, Link(LoginLinkUrl(cfg), token), "login");
      Outcome(st.(outbox := sent.value), Ok(Message("Login link sent")))
  }

  /** `verify_login(token)` at time `now`. It has no access to the store. */
  function VerifyLogin(cfg: Config, token: Token, now: int): (r: Response)
    ensures r.Err? <==> TokenSubject(cfg.secretKey, token, "login", now).None?
    ensures r.Err? ==> r.error == HttpError(400, MagicLink.INVALID_OR_EXPIRED)
    ensures r.Ok? ==>
      var e := token.claims.sub.value;
      r.value == SessionRedirect(cfg.frontendUrl, SessionJwt.CreateJwt(cfg.secretKey, e, now), e)
  {
    match TokenSubject(cfg.secretKey, token, "login", now)
    case None => Err(HttpError(400, MagicLink.INVALID_OR_EXPIRED))
    case Some(email) => Ok(SessionRedirect(cfg.frontendUrl, SessionJwt.CreateJwt(cfg.secretKey, email, now), email))
  }

  lemma RegisterKeepsStoreValid(cfg: Config, st: Store, name: string, email: string, now: int)
    requires StoreValid(st)
    ensures StoreValid(RegisterStep(cfg, st, name, email, now).store)
  {
    if email !in st.users {
      InsertKeepsTable(st.users, st.nextId, name, email);
    }
  }

  lemma VerifyEmailKeepsStoreValid(cfg: Config, st: Store, token: Token, now: int)
    requires StoreValid(st)
    ensures StoreValid(VerifyEmailStep(cfg, st, token, now).store)
  {
    var o := VerifyEmailStep(cfg, st, token, now);
    if o.response.Ok? {
      var e := token.claims.sub.value;
      UpdateKeepsTable(st.users, st.nextId, e, st.users[e].(isVerified := true));
    }
  }

  /** Verification touches only the row of the token's subject. */
  lemma VerifyEmailTouchesOnlySubject(cfg: Config, st: Store, token: Token, now: int, other: string)
    requires VerifyEmailStep(cfg, st, token, now).response.Ok?
    requires other != token.claims.sub.value
    ensures var users := VerifyEmailStep(cfg, st, token, now).store.users;
      (other in users <==> other in st.users) && (other in st.users ==> users[other] == st.users[other])
  {
  }

  /** Presenting the same token again, at any later time, leaves the store
      as the first verification left it. */
  lemma VerifyEmailIdempotent(cfg: Config, st: Store, token: Token, now: int, later: int)
    requires VerifyEmailStep(cfg, st, token, now).response.Ok?
    ensures var once := VerifyEmailStep(cfg, st, token, now).store;
      VerifyEmailStep(cfg, once, token, later).store == once
  {
    var e := token.claims.sub.value;
    var once := VerifyEmailStep(cfg, st, token, now).store;
    assert once.users[e].isVerified;
    assert once.users[e := once.users[e].(isVerified := true)] == once.users;
  }

  /** The link a registration mails verifies the new address while it is
      fresh: the user becomes verified and no other row changes. */
  lemma RegisterLinkVerifiesUser(cfg: Config, st: Store, name: string, email: string, now: int, later: int)
    requires email !in st.users
    requires now <= later <= now + MagicLink.TOKEN_LIFETIME
    ensures var registered := RegisterStep(cfg, st, name, email, now).store;
      var token := registered.outbox[|st.outbox|].link.token;
      var o := VerifyEmailStep(cfg, registered, token, later);
      && o.response.Ok?
      && o.store.users == st.users[email := User(st.nextId, name, email, true)]
      && o.store.outbox == registered.outbox
  {
    RegisterSendsVerifyLink(cfg, st, name, email, now);
  }

  /** A verification link is no login link and a login link is no
      verification link: each is refused at the other endpoint with 400,
      and the store stays as it was. */
  lemma LinksArePurposeBound(cfg: Config, st: Store, email: string, issued: int, now: int)
    requires issued <= now
    ensures VerifyLogin(cfg, MagicLink.CreateMagicToken(cfg.secretKey, email, "verify", issued), now)
            == Err(HttpError(400, MagicLink.INVALID_OR_EXPIRED))
    ensures VerifyEmailStep(cfg, st, MagicLink.CreateMagicToken(cfg.secretKey, email, "login", issued), now)
            == Outcome(st, Err(HttpError(400, MagicLink.INVALID_OR_EXPIRED)))
  {
  }

  /** Login links are not used up: the same link yields a session at any
      time before it expires, each time for the same address. */
  lemma LoginLinkReplayable(cfg: Config, email: string, issued: int, first: int, second: int)
    requires issued <= first <= issued + MagicLink.TOKEN_LIFETIME
    requires issued <= second <= issued + MagicLink.TOKEN_LIFETIME
    ensures var token := MagicLink.CreateMagicToken(cfg.secretKey, email, "login", issued);
      && VerifyLogin(cfg, token, first).Ok? && VerifyLogin(cfg, token, second).Ok?
      && VerifyLogin(cfg, token, first).value.email == email
      && VerifyLogin(cfg, token, second).value.email == email
  {
  }

  /** The whole flow for a new address: register, follow the mailed link,
      ask for a login link, follow it; the session token then verifies for
      that address for two hours and fails afterwards. */
  lemma {:induction false} EndToEnd(cfg: Config, st: Store, name: string, email: string,
                                    t0: int, t1: int, t2: int, t3: int, t4: int)
    requires StoreValid(st) && email !in st.users
    requires t0 <= t1 <= t0 + MagicLink.TOKEN_LIFETIME
    requires t2 <= t3 <= t2 + MagicLink.TOKEN_LIFETIME
    ensures var s1 := RegisterStep(cfg, st, name, email, t0).store;
      var s2 := VerifyEmailStep(cfg, s1, s1.outbox[|st.outbox|].link.token, t1).store;
      var o3 := LoginStep(cfg, s2, email, t2);
      && StoreValid(s2) && s2.users[email].isVerified
      && o3.response.Ok?
      && var login := o3.store.outbox[|s2.outbox|].link.token;
         var r := VerifyLogin(cfg, login, t3);
         && r.Ok? && r.value.email == email
         && var session := SessionJwt.VerifyJwt(cfg.secretKey, r.value.jwt, t4);
            (t4 <= t3 + SessionJwt.SESSION_LIFETIME <==> session.Ok?)
            && (session.Ok? ==> session.value.sub == Some(email))
  {
    var s1 := RegisterStep(cfg, st, name, email, t0).store;
    RegisterKeepsStoreValid(cfg, st, name, email, t0);
    RegisterLinkVerifiesUser(cfg, st, name, email, t0, t1);
    var s2 := VerifyEmailStep(cfg, s1, s1.outbox[|st.outbox|].link.token, t1).store;
    VerifyEmailKeepsStoreValid(cfg, s1, s1.outbox[|st.outbox|].link.token, t1);
    assert s2.users[email].isVerified;
    var o3 := LoginStep(cfg, s2, email, t2);
    var login := o3.store.outbox[|s2.outbox|].link.token;
    assert login == MagicLink.CreateMagicToken(cfg.secretKey, email, "login", t2);
    MagicLink.MagicTokenRoundTrip(cfg.secretKey, email, "login", t2, t3);
    var r := VerifyLogin(cfg, login, t3);
    assert r.value.jwt == SessionJwt.CreateJwt(cfg.secretKey, email, t3);
    SessionJwt.SessionRoundTrip(cfg.secretKey, email, t3, t4);
  }

  /** The backend: the `users` table and the outbox, changed in place by the
      four handlers. */
  class AuthService {
    const config: Config
    var users: map<string, User>
    var nextId: int
    var outbox: Outbox

    function State(): Store
      reads this
    {
      Store(users, nextId, outbox)
    }

    ghost predicate Valid()
      reads this
    {
      StoreValid(State())
    }

    constructor (config: Config)
      ensures Valid() && this.config == config
      ensures State() == Store(map[], 1, [])
    {
      this.config := config;
      users := map[];
      nextId := 1;
      outbox := [];
    }

    method Register(name: string, email: string, now: int) returns (r: Response)
      requires Valid()
      modifies this
      ensures Valid()
      ensures Outcome(State(), r) == RegisterStep(config, old(State()), name, email, now)
    {
      RegisterKeepsStoreValid(config, State(), name, email, now);
      if email in users {
        return Err(HttpError(400, "User already exists"));
      }
      users := users[email := NewUser(nextId, name, email)];
      nextId := nextId + 1;
      var token := MagicLink.CreateMagicToken(config.secretKey, email, "verify", now);
      var sent := Email.SendMagicLink(outbox, email, Link(VerifyLinkUrl(config), token), "verify");
      outbox := sent.value;
      r := Ok(Message("Verification email sent"));
    }

    method VerifyEmail(token: Token, now: int) returns (r: Response)
      requires Valid()
      modifies this
      ensures Valid()
      ensures Outcome(State(), r) == VerifyEmailStep(config, old(State()), token, now)
    {
      VerifyEmailKeepsStoreValid(config, State(), token, now);
      var subject := TokenSubject(config.secretKey, token, "verify", now);
      if subject.None? {
        return Err(HttpError(400, MagicLink.INVALID_OR_EXPIRED));
      }
      var email := subject.value;
      if email !in users {
        return Err(HttpError(404, "User not found"));
      }
      var user := users[email];
      users := users[email := user.(isVerified := true)];
      r := Ok(Redirect(config.frontendUrl + "/Verify?status=verified"));
    }

    method Login(email: string, now: int) returns (r: Response)
      requires Valid()
      modifies this
      ensures Valid()
      ensures Outcome(State(), r) == LoginStep(config, old(State()), email, now)
    {
      if email !in users {
        return Err(HttpError(404, "User not registered"));
      }
      if !users[email].isVerified {
        return Err(HttpError(400, "Email not verified"));
      }
      var token := MagicLink.CreateMagicToken(config.secretKey, email, "login", now);
      var sent := Email.SendMagicLink(outbox, email, Link(LoginLinkUrl(config), token), "login");
      outbox := sent.value;
      r := Ok(Message("Login link sent"));
    }
  }
}
