/** The shared-password login of app/api/simple-auth/login/route.ts. The
    body is read leniently (a body that does not parse, or a field whose
    conversion to a string throws, leaves the credentials not yet assigned
    empty); the email is trimmed and the password is not. The checks
    run in a fixed order: both present (400), the allowed domain configured
    (500), the email's domain equal to it ignoring ASCII case (400), the
    password accepted (500 when the check throws, 401 when it fails). A
    successful login sets the `ea_auth` and `ea_email` cookies; a failed
    password clears them. */
module Login {
  import opened Wrappers
  import opened Json
  import Text
  import SharedPassword

  const AuthCookie: string := "ea_auth"
  const EmailCookie: string := "ea_email"
  const SessionSeconds: int := 60 * 60 * 8

  const MissingError: string := "Missing email or password"
  const MisconfiguredError: string := "Server misconfigured (ALLOWED_EMAIL_DOMAIN missing)"
  const CheckFailedError: string := "Auth check failed"
  const InvalidError: string := "Invalid credentials"

  /** The environment variables the route reads; `None` is unset. */
  datatype Env = Env(allowedDomain: Option<string>, sharedPassword: Option<string>, nodeEnv: Option<string>)

  datatype CookieOptions = CookieOptions(
    httpOnly: Option<bool>,
    sameSite: Option<string>,
    secure: Option<bool>,
    path: string,
    maxAge: int)

  datatype SetCookie = SetCookie(name: string, value: string, options: CookieOptions)

  /** A JSON reply with its status, the cookies it sets in order, and
      whether it carries `Cache-Control: no-store`. */
  datatype Reply = Reply(status: int, body: Json, cookies: seq<SetCookie>, noStore: bool)

  function ErrorBody(message: string): Json {
    JObj(map["error" := JStr(message)])
  }

  /** `String(body?.[key] ?? "")` */
  function Field(body: Json, key: string): string {
    ValueString(Coalesce(Get(Some(body), key), Some(JStr(""))))
  }

  /** `String(body?.[key] ?? "")` as a computation that may throw. */
  function FieldText(body: Json, key: string): Result<string, string> {
    ValueToText(Coalesce(Get(Some(body), key), Some(JStr(""))))
  }

  /** The email (trimmed) and the password (as sent). They are assigned one
      after the other inside one `try`, so a body that does not parse leaves
      both empty, an email that throws when converted leaves both empty, and
      a password that throws leaves only the password empty. */
  function Credentials(body: Result<Json, string>): (r: (string, string))
    ensures body.Failure? ==> r == ("", "")
    ensures body.Success? ==>
      var email := FieldText(body.value, "email");
      var password := FieldText(body.value, "password");
      && (email.Failure? ==> r == ("", ""))
      && (email.Success? ==> r.0 == Text.Trim(Field(body.value, "email")))
      && (email.Success? && password.Failure? ==> r.1 == "")
      && (email.Success? && password.Success? ==> r.1 == Field(body.value, "password"))
  {
    match body
    case Failure(_) => ("", "")
    case Success(b) =>
      match FieldText(b, "email")
      case Failure(_) => ("", "")
      case Success(email) =>
        match FieldText(b, "password")
        case Failure(_) => (Text.Trim(email), "")
        case Success(password) => (Text.Trim(email), password)
  }

  /** A password field holding an object with its own `toString` leaves the
      password empty, so such a request is answered as one with no
      password. */
  lemma ThrowingPasswordIsMissing(b: Json, env: Env, secrets: Result<SharedPassword.Secrets, string>,
                                  bcrypt: SharedPassword.Bcrypt, fields: map<string, Json>)
    requires FieldText(b, "email").Success?
    requires Get(Some(b), "password") == Some(JObj(fields)) && "toString" in fields
    ensures Handle(Success(b), env, secrets, bcrypt) == Reply(400, ErrorBody(MissingError), [], false)
  {
  }

  /** `email.split("@")[1]?.toLowerCase()`: the lower-cased text between the
      first and the second `@`, absent when there is no `@`. */
  function DomainOf(email: string): Option<string> {
    var parts := Text.Split(email, '@');
    if |parts| >= 2 then Some(Text.Lower(parts[1])) else None
  }

  /** `(process.env.ALLOWED_EMAIL_DOMAIN || "").toLowerCase()` */
  function AllowedDomain(env: Env): string {
    Text.Lower(env.allowedDomain.GetOr(""))
  }

  function SessionOptions(env: Env, httpOnly: bool): CookieOptions {
    CookieOptions(Some(httpOnly), Some("lax"), Some(env.nodeEnv == Some("production")), "/", SessionSeconds)
  }

  const ClearOptions: CookieOptions := CookieOptions(None, None, None, "/", 0)

  /** Whether the request passes the three input checks. */
  predicate InputValid(email: string, password: string, env: Env) {
    email != "" && password != "" && AllowedDomain(env) != "" && DomainOf(email) == Some(AllowedDomain(env))
  }

  /** `POST`, given the parsed body, the environment, the `secret` table
      (`Failure` when the lookup throws) and bcrypt. */
  function Handle(body: Result<Json, string>, env: Env, secrets: Result<SharedPassword.Secrets, string>,
                  bcrypt: SharedPassword.Bcrypt): (r: Reply)
    ensures var (email, password) := Credentials(body);
      && (email == "" || password == "" ==> r == Reply(400, ErrorBody(MissingError), [], false))
      && (email != "" && password != "" && AllowedDomain(env) == "" ==>
            r == Reply(500, ErrorBody(MisconfiguredError), [], false))
      && (email != "" && password != "" && AllowedDomain(env) != "" && DomainOf(email) != Some(AllowedDomain(env)) ==>
            r == Reply(400, ErrorBody("Email must be @" + AllowedDomain(env)), [], false))
      && (r.status == 200 <==>
            && InputValid(email, password, env)
            && secrets.Success?
            && SharedPassword.Check(secrets.value, JStr(password), env.sharedPassword, bcrypt) == Success(true))
      && (r.status == 200 ==>
            && r.body == JObj(map["ok" := JBool(true), "next" := JStr("/archive")])
            && r.noStore
            && r.cookies == [SetCookie(AuthCookie, "1", SessionOptions(env, true)),
                             SetCookie(EmailCookie, email, SessionOptions(env, false))])
      && (r.status == 401 ==>
            && InputValid(email, password, env)
            && r.body == ErrorBody(InvalidError)
            && r.noStore
            && r.cookies == [SetCookie(AuthCookie, "", ClearOptions), SetCookie(EmailCookie, "", ClearOptions)])
      && (InputValid(email, password, env) && secrets.Success?
            && SharedPassword.Check(secrets.value, JStr(password), env.sharedPassword, bcrypt) == Success(false) ==>
            r.status == 401)
      && (InputValid(email, password, env)
            && (secrets.Failure? || SharedPassword.Check(secrets.value, JStr(password), env.sharedPassword, bcrypt).Failure?) ==>
            r == Reply(500, ErrorBody(CheckFailedError), [], false))
      && r.status in {200, 400, 401, 500}
  {
    var (email, password) := Credentials(body);
    var allowed := AllowedDomain(env);
    if email == "" || password == "" then Reply(400, ErrorBody(MissingError), [], false)
    else if allowed == "" then Reply(500, ErrorBody(MisconfiguredError), [], false)
    else if DomainOf(email) != Some(allowed) then Reply(400, ErrorBody("Email must be @" + allowed), [], false)
    else match secrets
      case Failure(_) => Reply(500, ErrorBody(CheckFailedError), [], false)
      case Success(table) =>
        match SharedPassword.Check(table, JStr(password), env.sharedPassword, bcrypt)
        case Failure(_) => Reply(500, ErrorBody(CheckFailedError), [], false)
        case Success(false) =>
          Reply(401, ErrorBody(InvalidError),
                [SetCookie(AuthCookie, "", ClearOptions), SetCookie(EmailCookie, "", ClearOptions)], true)
        case Success(true) =>
          Reply(200, JObj(map["ok" := JBool(true), "next" := JStr("/archive")]),
                [SetCookie(AuthCookie, "1", SessionOptions(env, true)),
                 SetCookie(EmailCookie, email, SessionOptions(env, false))], true)
  }

  /** The domain of an address with a single `@` is its lower-cased part
      after the `@`. */
  lemma DomainOfAddress(local: string, domain: string)
    requires '@' !in local && '@' !in domain
    ensures DomainOf(local + "@" + domain) == Some(Text.Lower(domain))
  {
    Text.SplitFirst(local, '@', domain);
    Text.SplitNone(domain, '@');
  }

  /** Only the text up to a second `@` is checked, so anything may follow
      it. */
  lemma DomainIgnoresAfterSecondAt(local: string, domain: string, rest: string)
    requires '@' !in local && '@' !in domain
    ensures DomainOf(local + "@" + domain + "@" + rest) == Some(Text.Lower(domain))
  {
    assert local + "@" + domain + "@" + rest == local + ['@'] + (domain + ['@'] + rest);
    Text.SplitFirst(local, '@', domain + ['@'] + rest);
    Text.SplitFirst(domain, '@', rest);
  }

  /** The session cookie lives eight hours, is HTTP-only, and is marked
      secure exactly in production. */
  lemma SessionCookieShape(body: Result<Json, string>, env: Env, secrets: Result<SharedPassword.Secrets, string>,
                           bcrypt: SharedPassword.Bcrypt)
    ensures Handle(body, env, secrets, bcrypt).status == 200 ==>
      var c := Handle(body, env, secrets, bcrypt).cookies[0];
      && c.name == AuthCookie && c.value == "1"
      && c.options.maxAge == 28800 && c.options.httpOnly == Some(true)
      && (c.options.secure == Some(true) <==> env.nodeEnv == Some("production"))
  {
  }
}
