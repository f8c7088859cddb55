/** The magic-link mailer (`email.py`). The provider call is an append to an
    outbox; what is modelled is the choice of subject and button text by
    purpose, the refusal of any other purpose, and the message that is sent. */
module Email {
  import opened Common

  const FROM_EMAIL: string := "onboarding@resend.dev"

  /** The lifetime the message body announces ("This link expires in 10
      minutes."). */
  const NOTICE_MINUTES: int := 10

  const INVALID_PURPOSE: string := "Invalid email purpose"

  /** Subject line and call-to-action text of one kind of message. */
  datatype Template = Template(subject: string, buttonText: string)

  /** One message handed to the provider; the link type is the caller's. */
  datatype Mail<L> = Mail(sender: string, to: string, subject: string, buttonText: string, link: L, noticeMinutes: int)

  /** The `if`/`elif`/`else` on `purpose`; `None` is the `ValueError`. */
  function TemplateFor(purpose: string): (r: Option<Template>)
    ensures r.Some? <==> purpose == "verify" || purpose == "login"
    ensures purpose == "verify" ==> r == Some(Template("Verify your email to continue", "Verify Email"))
    ensures purpose == "login" ==> r == Some(Template("Login to your account", "Login Now"))
  {
    if purpose == "verify" then Some(Template("Verify your email to continue", "Verify Email"))
    else if purpose == "login" then Some(Template("Login to your account", "Login Now"))
    else None
  }

  /** `send_magic_link(email, link, purpose)` against an outbox: exactly one
      message to `email` carrying `link` is appended, or, for an unknown
      purpose, the `ValueError` is raised before anything is sent. */
  function SendMagicLink<L>(outbox: seq<Mail<L>>, email: string, link: L, purpose: string)
    : (r: Result<seq<Mail<L>>, string>)
    ensures r.Err? <==> TemplateFor(purpose).None?
    ensures r.Err? ==> r.error == INVALID_PURPOSE
    ensures r.Ok? ==> |r.value| == |outbox| + 1 && r.value[..|outbox|] == outbox
    ensures r.Ok? ==> var m := r.value[|outbox|];
      m.sender == FROM_EMAIL && m.to == email && m.link == link
      && m.subject == TemplateFor(purpose).value.subject
      && m.buttonText == TemplateFor(purpose).value.buttonText
      && m.noticeMinutes == NOTICE_MINUTES
  {
    match TemplateFor(purpose)
    case None => Err(INVALID_PURPOSE)
    case Some(t) => Ok(outbox + [Mail(FROM_EMAIL, email, t.subject, t.buttonText, link, NOTICE_MINUTES)])
  }

  /** The two purposes the backend uses produce different messages, so the
      subject of a sent message tells which purpose it was sent for. */
  lemma SubjectsDistinguishPurposes()
    ensures TemplateFor("verify").value.subject != TemplateFor("login").value.subject
  {
  }
}
