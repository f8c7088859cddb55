# AI Content Studio: passwordless authentication and the studio's session

This project models the core of MediaContent_Personalizer ("AI Content
Studio") in Dafny:

- the FastAPI backend's passwordless login:
  - magic-link tokens (`magic_link.py`) and session tokens (`jwt.py`);
  - the message a link is sent in (`email.py`);
  - the `users` table (`models.py`);
  - the four handlers `register`, `verify_email`, `login` and `verify_login` (`auth.py`);
- the Streamlit front end's control logic:
  - the entry router (`app.py`) and the page guard (`auth_gaurd.py`);
  - the Register page's field checks and how it shows the answer of `/register`;
  - the Verify page, which stores the session token;
  - the Content Studio page: session defaults, the four-step wizard, templates, history search and breakdown, title truncation, and model-output cleaning.

Tokens are values of a datatype. A token holds its algorithm, its claims
(`sub`, `purpose`, `iat`, `exp`) and a symbolic MAC of the claims under a key.
Decoding accepts a token exactly when:

- the algorithm is HS256;
- the MAC matches the key;
- `exp` is absent or not yet passed.

Each backend handler is stated once as a function from the old store (the
users table, the next id, the outbox of sent mail) to the new store and the
HTTP reply. The class `Auth.AuthService` keeps these as fields, and its methods
are proved to perform exactly those steps. The front end's `st.session_state`
is one dictionary, `Session.SessionState.entries`. The page handlers are
methods that change it, and each one's `ensures` states the whole new
dictionary.

Module layout follows the source: `Jose` (the python-jose calls), `MagicLink`,
`SessionJwt`, `Email`, `Models`, `Auth`, `Url` (`urllib.parse` quoting and the
query-string parsing the front end sees), `Session`, `AppRouter`, `AuthGuard`,
`VerifyPage`, `RegisterPage`, `ContentStudio` (pure helpers of the studio page)
and `StudioSession` (what the studio page does to the session).

The model follows the code on these points:

- A token is still accepted at the very second it expires, as python-jose checks `exp < now`.
- The "already exists" check on the Register page is a substring test on the response text.
- A non-JSON error body lands in the generic `RequestException` handler, because `requests`' JSON error is a `RequestException`.
- JSON that is not an object makes `.get` raise an uncaught `AttributeError`, modelled as `Crashed`.

## Model

| member | source | states |
|---|---|---|
| Jose.Decode | magic_link.py:36-42 | a decoded token is a well-formed HS256 token signed with this key whose `exp`, if any, is not passed, and the claims returned are the token's |
| Jose.DecodeEncode | jwt.py:23-27 | decoding what was encoded with the same key gives back the claims exactly while they are unexpired, and fails afterwards |
| Jose.DecodeOtherKey | magic_link.py:36-42 | a token signed with one key never decodes under another |
| MagicLink.CreateMagicToken | magic_link.py:14-28 | the token is HS256, has subject = address, the given purpose, `iat` = now and `exp` = now + 10 minutes |
| MagicLink.VerifyMagicToken | magic_link.py:31-50 | accepted iff the token decodes and its purpose is the expected one; decode failure gives 400 "Invalid or expired token", a wrong purpose 400 "Invalid token purpose"; the payload is returned on success |
| MagicLink.MagicTokenRoundTrip | magic_link.py:14-50 | a fresh link verifies for its own purpose for 10 minutes and yields the address it was made for |
| MagicLink.MagicTokenExpires | magic_link.py:8 | after 10 minutes a link is refused with 400 "Invalid or expired token" whatever purpose is asked |
| MagicLink.MagicTokenPurposeBound | magic_link.py:44-48 | an unexpired link made for one purpose is refused for any other with 400 "Invalid token purpose" |
| MagicLink.NoPurposeNeverAccepted | magic_link.py:44-48 | a token without a `purpose` claim is refused for every purpose |
| SessionJwt.CreateJwt | jwt.py:14-20 | session token: HS256, subject = address, no purpose, `iat` = now, `exp` = now + 2 hours |
| SessionJwt.VerifyJwt | jwt.py:23-27 | accepted iff the token decodes; otherwise 401 "Invalid session token" |
| SessionJwt.SessionRoundTrip | jwt.py:8-27 | a session token verifies exactly until two hours after issue, with the address as subject |
| SessionJwt.SessionTokenIsNoMagicLink | magic_link.py:44-48 | a session token (no purpose) is never accepted as a magic link |
| SessionJwt.MagicLinkPassesAsSession | jwt.py:23-27 | an unexpired magic link also passes session verification, since `verify_jwt` checks no purpose |
| Email.TemplateFor | email.py:17-32 | exactly `verify` and `login` have a template, each with its own subject and button text |
| Email.SendMagicLink | email.py:11-62 | an unknown purpose raises "Invalid email purpose" and sends nothing; otherwise exactly one message is appended, from the sandbox sender, to the address, with the purpose's subject, button, link and the 10-minute notice |
| Email.SubjectsDistinguishPurposes | email.py:17-27 | the verification and login messages have different subjects |
| Models.NewUser | models.py:10-16 | a new row carries its id, name and address and is not verified |
| Models.InsertKeepsTable | models.py:10-16 | inserting a new address with the next id keeps the table keyed by address with unique ids below the next id |
| Models.UpdateKeepsTable | models.py:10-16 | changing a row in place without touching its id or address keeps the table invariant |
| Auth.LoadConfig | auth.py:18-22 | loading succeeds iff `SECRET_KEY`, `APP_URL` and `FRONTEND_URL` are all set and non-empty; the secret key is checked first, with its own message |
| Auth.RegisterStep | auth.py:37-55 | a known address gives 400 "User already exists" and no change; otherwise the user is inserted unverified with the next id, one message is sent, and the reply is "Verification email sent" |
| Auth.RegisterSendsVerifyLink | auth.py:50-53 | the registration message goes to the new address with the verification subject and links to `/verify` with a `verify` token for that address |
| Auth.MailNoticeMatchesToken | email.py:51-53 | the "expires in 10 minutes" notice of the mailed link agrees with the `exp` of the token it carries |
| Auth.LoginNoticeMatchesToken | auth.py:93-96 | the login message's "expires in 10 minutes" notice likewise agrees with the `exp` of the login token it carries |
| Auth.VerifyLinkUrl | auth.py:51 | the verification link is `APP_URL` followed by `/verify?token=` and the token |
| Auth.LoginLinkUrl | auth.py:94 | the login link is `APP_URL` followed by `/login/verify?token=` and the token |
| Auth.TokenSubject | auth.py:62-66 | a subject is found iff the token verifies for the purpose and has a `sub`; every other failure, the missing `sub` included, is one case |
| Auth.VerifyEmailStep | auth.py:60-78 | a bad token gives 400, an unknown subject 404 "User not found", both without change; otherwise that user becomes verified and the reply redirects to the Verify page with `status=verified` |
| Auth.LoginStep | auth.py:83-98 | unknown address 404, unverified 400, both without change; otherwise users are unchanged and exactly one login message is sent: from the sandbox sender, to the address, with the login subject, the "Login Now" button, the 10-minute notice and a link to `/login/verify` with a fresh `login` token |
| Auth.VerifyLogin | auth.py:104-117 | fails with 400 iff the token is no valid login link; otherwise redirects to the front end with a session token for the link's address |
| Auth.RegisterKeepsStoreValid | auth.py:37-55 | registration keeps the users-table invariant |
| Auth.VerifyEmailKeepsStoreValid | auth.py:60-78 | verification keeps the users-table invariant |
| Auth.VerifyEmailTouchesOnlySubject | auth.py:68-73 | verification changes no row other than the token subject's |
| Auth.VerifyEmailIdempotent | auth.py:60-78 | following the same verification link again, at any time, changes nothing more |
| Auth.RegisterLinkVerifiesUser | auth.py:37-78 | the link mailed on registration, followed within 10 minutes, verifies exactly that user |
| Auth.LinksArePurposeBound | auth.py:60-117 | a verification link is refused at `/login/verify` and a login link at `/verify`, with 400 and no change |
| Auth.LoginLinkReplayable | auth.py:104-117 | a login link is not used up: it yields a session for the same address every time until it expires |
| Auth.EndToEnd | auth.py:37-117 | register, verify, login and follow the link: the user ends verified and the session token verifies for that address exactly for two hours |
| Auth.AuthService.Register | auth.py:37-55 | performs exactly `RegisterStep` on the fields and keeps the table invariant |
| Auth.AuthService.VerifyEmail | auth.py:60-78 | performs exactly `VerifyEmailStep` on the fields and keeps the table invariant |
| Auth.AuthService.Login | auth.py:83-98 | performs exactly `LoginStep` on the fields and keeps the table invariant |
| Common.LeadingSpaces | Register.py:330 | the count of leading whitespace characters, as `str.strip` removes them |
| Common.TrailingSpaces | Register.py:330 | the count of trailing whitespace characters |
| Common.StripSpec | Register.py:330 | `Strip` removes exactly the leading and trailing whitespace and keeps the middle |
| Common.StripIdempotent | hyma/Streamlit_app_Frontend/pages/Content_Studio.py:184 | stripping twice is stripping once |
| Common.StripOfTrimmed | hyma/Streamlit_app_Frontend/pages/Content_Studio.py:184 | a text without whitespace at either end is left as it is |
| Common.LowerChar | hyma/Streamlit_app_Frontend/pages/Content_Studio.py:1458 | upper-case ASCII letters map to lower case, everything else is kept |
| Common.Lower | hyma/Streamlit_app_Frontend/pages/Content_Studio.py:1458 | lower-cases every character and keeps the length |
| Common.ContainsAt | Register.py:367 | Python's `in` on strings holds iff the needle occurs at some position |
| Common.ContainsInfix | Register.py:367 | a text contains every infix of it |
| Common.ContainsChar | Register.py:328 | the one-character `in` test is membership of that character |
| Url.HexDigit | auth.py:112 | the digit is an upper-case hex digit, safe for quoting, whose value is the input |
| Url.Utf8 | auth.py:112 | each character is one to four bytes, each below 256, and an ASCII character is its own single byte |
| Url.Escape | auth.py:112 | each UTF-8 byte becomes `%` and two upper-case hex digits, three characters per byte |
| Url.QuoteOutputSafe | auth.py:112 | the quoted text holds only safe characters and `%` |
| Url.UnquoteQuote | hyma/Streamlit_app_Frontend/pages/Verify.py:345 | unquoting an ASCII text that was quoted gives it back |
| Url.UnquoteNoEscape | hyma/Streamlit_app_Frontend/pages/Verify.py:345 | a text without `%` is left unchanged by `unquote` |
| Url.QuoteAllSafe | auth.py:112 | a text of safe characters is left unchanged by `quote` |
| Url.UnquotePlusQuote | auth.py:112-115 | form-decoding a quoted ASCII text gives it back |
| Url.PlusToSpace | auth.py:115 | every `+` becomes a space and nothing else changes |
| Url.CompactJwsUnchanged | auth.py:112 | a compact JWS (base64url and dots) is unchanged by quoting and by unquoting |
| Url.SplitOn | auth.py:115 | the first piece is the longest prefix without the separator, and the separator follows it when there are more pieces |
| Url.SplitOnNone | auth.py:115 | a text without the separator is one piece |
| Url.SplitOnFirst | auth.py:115 | splitting `a + sep + b` with `sep` not in `a` gives `a` and then the pieces of `b` |
| Url.SplitFieldAt | auth.py:115 | `name=value` with no `=` in the name splits at that `=` |
| Url.ParseTwoFields | auth.py:115 | a two-field query parses to the two decoded name/value pairs |
| Url.ParseJwtEmail | auth.py:115 | the redirect query `jwt=…&email=…` parses to the form-decoded token and address |
| Url.SessionQueryAsWritten | auth.py:111-115 | the query of the session redirect as written: `jwt=` the quoted token, `&email=` the address as it is |
| Url.SessionQuery | auth.py:111-115 | the same query with the address quoted like the token |
| Url.SessionQueryRoundTrip | auth.py:112-115 | with the address quoted like the token, the Verify page reads back exactly the minted token and the address |
| Url.PlusAddressDecoded | auth.py:115 | form decoding turns a plus-address `local+tag` into `local tag` |
| Url.PlusInEmailIsLost | auth.py:115 | for any plus-address `local+tag`, the redirect as written hands the Verify page `local tag`, which is not the address the token was minted for |
| Url.PlusAddressExample | auth.py:115 | for the address `a+b@x.com` the Verify page receives `a b@x.com` |
| Session.SessionState.Logout | hyma/Streamlit_app_Frontend/pages/Content_Studio.py:1039-1042 | every key is deleted and the visitor goes to the Login page |
| AppRouter.Route | app.py:28-41 | `verify` and `login` pages open as they are; otherwise the studio iff the session holds `jwt`, else the landing page |
| AppRouter.RouteSeesOnlyJwtKey | app.py:35-37 | two sessions that agree on the presence of `jwt` are routed alike |
| AppRouter.LoggedOutGoesHome | app.py:35-41 | an emptied session is routed to the landing page unless a self-opening page was asked for |
| AuthGuard.Protect | auth_gaurd.py:3-9 | the page may render iff the session holds `jwt`; otherwise the visitor is sent to Login |
| AuthGuard.AnyJwtPasses | auth_gaurd.py:8 | any value stored under `jwt`, valid or not, passes the guard |
| AuthGuard.LogoutThenProtect | hyma/Streamlit_app_Frontend/pages/Content_Studio.py:1039-1042 | after logout the session is empty and the guard sends the visitor to Login |
| VerifyPage.SelectView | hyma/Streamlit_app_Frontend/pages/Verify.py:303-397 | `status=verified` comes first, then the presence of `jwt`; anything else is the invalid-link view |
| VerifyPage.EmailParam | hyma/Streamlit_app_Frontend/pages/Verify.py:346 | `params.get("email")`: the address when present, `None` otherwise |
| VerifyPage.Show | hyma/Streamlit_app_Frontend/pages/Verify.py:298-442 | the login view stores the unquoted token and the address and goes to the studio; the other views leave the session unchanged and navigate only on their buttons |
| VerifyPage.StoredTokenIsMinted | hyma/Streamlit_app_Frontend/pages/Verify.py:344-346 | the corrected redirect opens the login view, which stores exactly the minted token and the address |
| VerifyPage.LoggedInPassesGuard | hyma/Streamlit_app_Frontend/pages/Verify.py:344-390 | once the token is stored the guard admits the visitor and the router sends them to the studio |
| RegisterPage.ValidateRegistration | Register.py:326-331 | each warning is shown iff its check is the first that fails, in the page's order |
| RegisterPage.ValidIff | Register.py:326-332 | the fields pass iff both are non-empty, the address has `@` and `.`, and the stripped name has two or more characters |
| RegisterPage.BlankNameIsTooShort | Register.py:330-331 | a name of only spaces gets past the first check and is stopped by the full-name check |
| RegisterPage.Classify | Register.py:342-384 | 200 is success; a non-200 that is 400 with "already exists" in the text is a duplicate; other errors show `detail` or the default; a timeout, a connection error, another request error or a non-JSON body each show their own message; JSON that is not an object crashes |
| RegisterPage.CreateAccount | Register.py:325-339 | a failed check shows its warning; otherwise the answer of the request is classified |
| RegisterPage.NoRequestOnWarning | Register.py:326-333 | when a check fails, the request's answer makes no difference: none is sent |
| RegisterPage.BackendDuplicateIsRecognised | Register.py:367 | the backend's duplicate-registration error, as FastAPI serialises it, is shown as an existing account |
| ContentStudio.IndexOf | hyma/Streamlit_app_Frontend/pages/Content_Studio.py:182 | the first position of the character |
| ContentStudio.TagEnd | hyma/Streamlit_app_Frontend/pages/Content_Studio.py:182 | a tag match ends at the first `>` after the opening `<` and holds at least one other character |
| ContentStudio.RemoveTags | hyma/Streamlit_app_Frontend/pages/Content_Studio.py:182 | removing tags never lengthens the text |
| ContentStudio.RemoveChar | hyma/Streamlit_app_Frontend/pages/Content_Studio.py:183 | the character is gone, nothing new appears, and a text without it is unchanged |
| ContentStudio.StripKeepsChars | hyma/Streamlit_app_Frontend/pages/Content_Studio.py:184 | stripping adds no characters |
| ContentStudio.RemoveTagsPlain | hyma/Streamlit_app_Frontend/pages/Content_Studio.py:182 | a text without `<` has no tags to remove |
| ContentStudio.RemoveTagsPrefix | hyma/Streamlit_app_Frontend/pages/Content_Studio.py:182 | a prefix without `<` is kept and removal goes on after it |
| ContentStudio.RemoveTagsKeepsChars | hyma/Streamlit_app_Frontend/pages/Content_Studio.py:182 | removing tags introduces no character that was not in the text |
| ContentStudio.CleanModelOutput | hyma/Streamlit_app_Frontend/pages/Content_Studio.py:181-184 | the cleaned answer holds no `<` or `>` and only characters of the model's answer |
| ContentStudio.CleanOutputShape | hyma/Streamlit_app_Frontend/pages/Content_Studio.py:181-184 | cleaned output has no angle brackets, no whitespace at either end, and only characters of the input |
| ContentStudio.CleanKeepsPlainText | hyma/Streamlit_app_Frontend/pages/Content_Studio.py:181-184 | plain, already-trimmed text is returned as it is |
| ContentStudio.CleanIdempotent | hyma/Streamlit_app_Frontend/pages/Content_Studio.py:181-184 | cleaning cleaned output changes nothing |
| ContentStudio.TagDropped | hyma/Streamlit_app_Frontend/pages/Content_Studio.py:182 | a leading `<…>` is removed whole |
| ContentStudio.CleanUnwrapsTag | hyma/Streamlit_app_Frontend/pages/Content_Studio.py:181-184 | text wrapped in an opening and closing tag comes out as the stripped inner text |
| ContentStudio.ProgressIndex | hyma/Streamlit_app_Frontend/pages/Content_Studio.py:1056-1062 | `preferences` is step 1, `generation` step 2, every other step 0 |
| ContentStudio.RenderProgress | hyma/Streamlit_app_Frontend/pages/Content_Studio.py:1049-1086 | three statuses: completed before the current step, active at it, pending after; the bar is filled to 50% per completed step |
| ContentStudio.TruncateTitle | hyma/Streamlit_app_Frontend/pages/Content_Studio.py:162 | `title[:60]`: a prefix of at most 60 characters, the whole title when it fits, exactly 60 otherwise |
| ContentStudio.HistoryRow | hyma/Streamlit_app_Frontend/pages/Content_Studio.py:156-176 | the saved row carries the truncated title, the address, the content and the time |
| ContentStudio.TruncateIdempotent | hyma/Streamlit_app_Frontend/pages/Content_Studio.py:162 | truncating a truncated title changes nothing |
| ContentStudio.FilterMatching | hyma/Streamlit_app_Frontend/pages/Content_Studio.py:1458 | the filtered list keeps the order of the history, every kept item matches, and every matching item is kept |
| ContentStudio.SearchHistory | hyma/Streamlit_app_Frontend/pages/Content_Studio.py:1455-1458 | an empty search shows the whole history; otherwise exactly the items whose title or content contains the query, case-insensitively |
| ContentStudio.Find | hyma/Streamlit_app_Frontend/pages/Content_Studio.py:1703 | the position of a type in the breakdown, or none when it is absent |
| ContentStudio.CountOfSnoc | hyma/Streamlit_app_Frontend/pages/Content_Studio.py:1703 | one more item adds one to the count of its own type and to no other |
| ContentStudio.SumAppend | hyma/Streamlit_app_Frontend/pages/Content_Studio.py:1703 | adding a new type adds its count to the total |
| ContentStudio.SumIncrement | hyma/Streamlit_app_Frontend/pages/Content_Studio.py:1703 | incrementing one count increments the total |
| ContentStudio.TypesAppend | hyma/Streamlit_app_Frontend/pages/Content_Studio.py:1703 | adding a new type adds it to the listed types |
| ContentStudio.TypesUpdate | hyma/Streamlit_app_Frontend/pages/Content_Studio.py:1703 | changing a count leaves the listed types alone |
| ContentStudio.TallyStep | hyma/Streamlit_app_Frontend/pages/Content_Studio.py:1702-1703 | one more item keeps the breakdown correct for the longer history |
| ContentStudio.TallyListsOnlyPresent | hyma/Streamlit_app_Frontend/pages/Content_Studio.py:1702-1703 | the type of every counted item is listed |
| ContentStudio.CountPositive | hyma/Streamlit_app_Frontend/pages/Content_Studio.py:1703 | the type of an item in the history has a positive count |
| ContentStudio.CountByType | hyma/Streamlit_app_Frontend/pages/Content_Studio.py:1701-1703 | each type is listed once with its number of items, which is positive; every type in the history is listed; the counts add up to the history's length |
| StudioSession.Defaults | hyma/Streamlit_app_Frontend/pages/Content_Studio.py:59-105 | the defaults dictionary: no content or choices yet, a 150-word limit, the three default templates, the idea step of New Content, and the shown name and address taken from the login keys when present |
| StudioSession.DefaultTemplates | hyma/Streamlit_app_Frontend/pages/Content_Studio.py:58-109 | the session starts with three templates |
| StudioSession.Get | hyma/Streamlit_app_Frontend/pages/Content_Studio.py:71-72 | `session_state.get(key, fallback)`: the stored value when the key is present, the fallback otherwise (the same call reads the address at line 1270) |
| StudioSession.MergeNothing | hyma/Streamlit_app_Frontend/pages/Content_Studio.py:107-109 | before any key is visited the session is as it was |
| StudioSession.MergeAll | hyma/Streamlit_app_Frontend/pages/Content_Studio.py:107-109 | after every key is visited the session is the defaults overridden by its old values |
| StudioSession.MergeOneMore | hyma/Streamlit_app_Frontend/pages/Content_Studio.py:107-109 | visiting one key inserts it only when absent |
| StudioSession.InsertMissing | hyma/Streamlit_app_Frontend/pages/Content_Studio.py:107-109 | the loop leaves the dictionary merged under the session: missing keys take the default, present keys keep their value |
| StudioSession.InitSessionState | hyma/Streamlit_app_Frontend/pages/Content_Studio.py:58-109 | every default key the session lacks is added with its default; keys already present keep their values |
| StudioSession.InitShapesNewSession | hyma/Streamlit_app_Frontend/pages/Content_Studio.py:58-109 | a session with none of the studio's keys ends fully shaped, on the `input` step of the `new_content` page, showing the address stored at login |
| StudioSession.Navigate | hyma/Streamlit_app_Frontend/pages/Content_Studio.py:1000-1004 | the page changes, and "New Content" also returns to the idea step; nothing else changes |
| StudioSession.SubmitIdea | hyma/Streamlit_app_Frontend/pages/Content_Studio.py:1133-1156 | a stripped idea under ten characters changes nothing; otherwise the idea is kept, and only a parsed answer stores the two prompts and moves to prompt selection |
| StudioSession.SelectPrompt | hyma/Streamlit_app_Frontend/pages/Content_Studio.py:1175-1178 | the chosen prompt's text is selected and the step becomes `preferences` |
| StudioSession.SetPreferences | hyma/Streamlit_app_Frontend/pages/Content_Studio.py:1238-1249 | unless all four selectors are set nothing changes; otherwise the choices and the word limit are stored, and generating moves to `generation` |
| StudioSession.GenerateContent | hyma/Streamlit_app_Frontend/pages/Content_Studio.py:1256-1279 | with content already shown, or an empty answer, nothing changes and nothing is saved; otherwise the cleaned answer is shown, and a history row with the session's choices and the prompt as title is saved exactly when the selected prompt is a string; a `None` prompt (after "Use Template") makes the save fail and adds no row |
| StudioSession.Regenerate | hyma/Streamlit_app_Frontend/pages/Content_Studio.py:1300-1304 | only the content and the evaluation are cleared |
| StudioSession.NewContent | hyma/Streamlit_app_Frontend/pages/Content_Studio.py:1307-1317 | back to the idea step with content, idea, the four preferences and the evaluation cleared; the word limit is kept |
| StudioSession.UseTemplate | hyma/Streamlit_app_Frontend/pages/Content_Studio.py:1532-1542 | the template's five preferences are loaded and the wizard opens on `preferences` of `new_content` |
| StudioSession.LoadHistoryItem | hyma/Streamlit_app_Frontend/pages/Content_Studio.py:144-154 | the saved row's title, preferences and content are loaded and the wizard opens on `generation` |
| StudioSession.SaveTemplate | hyma/Streamlit_app_Frontend/pages/Content_Studio.py:1331-1347 | saved iff the stripped name is not blank; then one template with the current preferences is appended, the dialog closes, and the total grows by one; otherwise nothing changes |
| StudioSession.DeleteTemplate | hyma/Streamlit_app_Frontend/pages/Content_Studio.py:1584-1585 | `pop(idx)` removes exactly that saved template and the total falls by one |

## Left out

- Cryptography: the HS256 signature is a symbolic MAC of the claims under the key. Base64url encoding and forgery resistance are not modelled, so resistance to tampering is assumed, not proved.
- The clock: each call reads one time `now`, in seconds, given as a parameter. `datetime.utcnow()` is read twice in the source and the two readings are taken as equal.
- The database: SQLAlchemy sessions, commits and failures are not modelled. The `users` table is a map keyed by address with an id counter. Rows of `content_history` get their id and `created_at` as parameters. `database.py` is not part of this model.
- Mail delivery: the Resend API call is appending to an outbox. The HTML body is not modelled beyond its link, button text and expiry notice.
- HTTP: the front end's `requests.post` result is a parameter (`RegisterPage.Transport`). Redirects are values. The Login page (`LoginVerify.py`) and the landing page are not part of this model.
- The language model: the prompt text and the Bedrock call are not modelled. An answer is a parameter (`StudioSession.PromptReply`, or the text of the reply). JSON parsing of the prompts is an outcome in that parameter.
- Evaluation scores, readability percentages, the profile statistics other than the template count, and `time.sleep` are not modelled; they are floating-point display code.
- Page markup: the HTML, CSS, emoji prefixes of messages, theme and profile picture are not modelled. Warnings are the message text without the emoji.
- History queries: `get_user_history` and `delete_history_item` are database reads and deletes. The history is the sequence they would return.
- Concurrency: Streamlit reruns and simultaneous requests are not modelled. Each handler runs alone.
- Common.Lower: lower-cases ASCII letters only, while Python's `str.lower` also folds other alphabets.
- Url.Unquote: decodes each `%XX` as one character (Latin-1), so it agrees with Python's UTF-8 `unquote` only on ASCII. The round-trip lemmas therefore require ASCII.
- StudioSession.GenerateContent: a column other than the title that the session holds as `None` is saved as "" or 0 (`TextOf`, `NumberOf`) rather than as SQL NULL. A title that is not a string makes the save fail, which the model does capture.
- RegisterPage.ErrorBody: the detail is inserted without JSON escaping, which only matters for details containing quotes or backslashes; the backend's details contain neither.
- ContentStudio.CountByType: does not state that types are listed in the order of their first occurrence, which the loop keeps, like the dictionary it models.
- StudioSession.InitSessionState: states the resulting dictionary as a map, without key order, which nothing in the page depends on.

## Findings

| source | as written | input that shows it | evidently intended | confidence | as-written member | corrected member |
|---|---|---|---|---|---|---|
| auth.py:115 | the session redirect quotes the token but inserts the address into the query unquoted | address `a+b@x.com`, or any `local+tag`: the Verify page reads `a b@x.com` | quote the address like the token, so the front end stores the address the token was minted for | medium, not executed | Url.PlusInEmailIsLost | Url.SessionQueryRoundTrip |
