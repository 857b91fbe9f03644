/** The admin check shared by the Klaviyo sync route and the password
    route: the `emaldo_email` cookie, lower-cased (a missing cookie reads as
    the empty string), must equal the `ADMIN_EMAIL` environment variable,
    lower-cased (unset reads as the empty string). Anything else is a 403
    before the route does any other work. */
module AdminGuard {
  import opened Wrappers
  import Text

  /** `c.get('emaldo_email')?.value?.toLowerCase() || ''` */
  function CookieEmail(cookie: Option<string>): string {
    match cookie
    case Some(v) => Text.Lower(v)
    case None => ""
  }

  /** `(process.env.ADMIN_EMAIL || '').toLowerCase()` */
  function AdminEmail(adminEnv: Option<string>): string {
    Text.Lower(adminEnv.GetOr(""))
  }

  predicate Admitted(cookie: Option<string>, adminEnv: Option<string>) {
    CookieEmail(cookie) == AdminEmail(adminEnv)
  }

  /** The comparison ignores ASCII case on both sides. */
  lemma AdmittedIgnoresCase(cookie: string, adminEnv: string)
    ensures Admitted(Some(cookie), Some(adminEnv)) <==> Admitted(Some(Text.Lower(cookie)), Some(adminEnv))
    ensures Admitted(Some(cookie), Some(adminEnv)) <==> Admitted(Some(cookie), Some(Text.Lower(adminEnv)))
  {
    Text.LowerIdempotent(cookie);
    Text.LowerIdempotent(adminEnv);
  }

  /** With `ADMIN_EMAIL` set to a non-empty value, a request without the
      cookie is refused; with it unset or empty, a request without the
      cookie is let through, since both sides read as the empty string. */
  lemma MissingCookie(adminEnv: Option<string>)
    ensures Admitted(None, adminEnv) <==> adminEnv.GetOr("") == ""
  {
  }
}
