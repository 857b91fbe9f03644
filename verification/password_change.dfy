/** The admin password change of app/api/admin/password/route.ts. After the
    admin check the body is read (an unreadable body reads as `{}`), the
    new password must be truthy and not shorter than eight, the current
    password must pass the shared-password check, and then the bcrypt hash
    of the new password is written under `shared_password_hash`. The body
    fields are used as sent, without conversion to strings. */
module PasswordChange {
  import opened Wrappers
  import opened Json
  import Text
  import AdminGuard
  import SharedPassword

  const TooShortError: string := "New password must be at least 8 characters"
  const WrongCurrentError: string := "Current password is incorrect"

  /** A reply: the status and the JSON body, with no body when an error
      escaped the handler and the framework answers 500. */
  datatype Reply = Reply(status: int, body: Option<Json>)

  function Refusal(status: int, message: string): Reply {
    Reply(status, Some(JObj(map["ok" := JBool(false), "error" := JStr(message)])))
  }

  /** `body?.[key] ?? ""` */
  function Field(body: Json, key: string): Json {
    Coalesce(Get(Some(body), key), Some(JStr(""))).value
  }

  /** `v.length < 8` for the values that have a length: strings, whose
      length counts UTF-16 code units, and arrays. Any other value has no
      length, and `undefined < 8` is false. */
  predicate ShorterThan8(v: Json) {
    match v
    case JStr(s) => Text.Utf16Length(s) < 8
    case JArr(items) => |items| < 8
    case _ => false
  }

  /** `POST`, given the admin cookie, the environment, the parsed body, the
      `secret` table and bcrypt; it answers and returns the table it
      leaves. */
  function Handle(cookie: Option<string>, adminEnv: Option<string>, sharedEnv: Option<string>,
                  body: Result<Json, string>, secrets: SharedPassword.Secrets, bcrypt: SharedPassword.Bcrypt)
    : (r: (Reply, SharedPassword.Secrets))
    ensures r.0.status == 403 <==> !AdminGuard.Admitted(cookie, adminEnv)
    ensures r.1 != secrets ==> r.0.status == 200
    ensures var b := match body case Success(v) => v case Failure(_) => JObj(map[]);
      var next := Field(b, "next");
      var current := Field(b, "current");
      && (AdminGuard.Admitted(cookie, adminEnv) && (!Truthy(Some(next)) || ShorterThan8(next)) ==>
            r == (Refusal(400, TooShortError), secrets))
      && (r.0.status == 200 <==>
            && AdminGuard.Admitted(cookie, adminEnv)
            && Truthy(Some(next)) && !ShorterThan8(next)
            && SharedPassword.Check(secrets, current, sharedEnv, bcrypt) == Success(true)
            && bcrypt.hash(next).Success?)
      && (r.0.status == 200 ==>
            && r.0.body == Some(JObj(map["ok" := JBool(true)]))
            && r.1 == secrets[SharedPassword.HashKey := bcrypt.hash(next).value])
      && (r.0.status == 401 ==> SharedPassword.Check(secrets, current, sharedEnv, bcrypt) == Success(false))
      && (AdminGuard.Admitted(cookie, adminEnv) && Truthy(Some(next)) && !ShorterThan8(next) ==>
            && (SharedPassword.Check(secrets, current, sharedEnv, bcrypt) == Success(false) ==>
                  r == (Refusal(401, WrongCurrentError), secrets))
            && (SharedPassword.Check(secrets, current, sharedEnv, bcrypt).Failure? ==>
                  r == (Reply(500, None), secrets))
            && (SharedPassword.Check(secrets, current, sharedEnv, bcrypt) == Success(true) && bcrypt.hash(next).Failure? ==>
                  r == (Reply(500, None), secrets)))
    ensures r.0.status in {200, 400, 401, 403, 500}
  {
    if !AdminGuard.Admitted(cookie, adminEnv) then (Refusal(403, "Forbidden"), secrets)
    else
      var b := match body case Success(v) => v case Failure(_) => JObj(map[]);
      var current := Field(b, "current");
      var next := Field(b, "next");
      if !Truthy(Some(next)) || ShorterThan8(next) then (Refusal(400, TooShortError), secrets)
      else match SharedPassword.Check(secrets, current, sharedEnv, bcrypt)
        case Failure(_) => (Reply(500, None), secrets)
        case Success(false) => (Refusal(401, WrongCurrentError), secrets)
        case Success(true) =>
          match bcrypt.hash(next)
          case Failure(_) => (Reply(500, None), secrets)
          case Success(h) =>
            (Reply(200, Some(JObj(map["ok" := JBool(true)]))), secrets[SharedPassword.HashKey := h])
  }

  /** The length test counts UTF-16 code units: a new password of four
      characters outside the Basic Multilingual Plane (four emoji, say) is
      long enough, while any string of eight or more characters is, and any
      of fewer than four is not. */
  lemma LengthCountsCodeUnits(s: string)
    ensures |s| >= 8 ==> !ShorterThan8(JStr(s))
    ensures |s| < 4 ==> ShorterThan8(JStr(s))
    ensures |s| == 4 && (forall i | 0 <= i < |s| :: s[i] as int > 0xFFFF) ==> !ShorterThan8(JStr(s))
  {
    if |s| == 4 && (forall i | 0 <= i < |s| :: s[i] as int > 0xFFFF) {
      assert Text.Utf16Length(s) == 2 + Text.Utf16Length(s[1..]);
      assert Text.Utf16Length(s[1..]) == 2 + Text.Utf16Length(s[2..]);
      assert Text.Utf16Length(s[2..]) == 2 + Text.Utf16Length(s[3..]);
      assert Text.Utf16Length(s[3..]) == 2 + Text.Utf16Length(s[4..]);
    }
  }

  /** After a successful change to a non-empty hash, the shared password is
      whatever bcrypt accepts against the new hash, and the
      `SHARED_PASSWORD` fallback no longer opens anything. */
  lemma ChangeReplacesPassword(cookie: Option<string>, adminEnv: Option<string>, sharedEnv: Option<string>,
                               body: Result<Json, string>, secrets: SharedPassword.Secrets,
                               bcrypt: SharedPassword.Bcrypt, candidate: Json, laterEnv: Option<string>)
    requires Handle(cookie, adminEnv, sharedEnv, body, secrets, bcrypt).0.status == 200
    ensures var after := Handle(cookie, adminEnv, sharedEnv, body, secrets, bcrypt).1;
      SharedPassword.HashKey in after &&
      (after[SharedPassword.HashKey] != "" ==>
         SharedPassword.Check(after, candidate, laterEnv, bcrypt)
           == bcrypt.compare(candidate, after[SharedPassword.HashKey]))
  {
  }
}
