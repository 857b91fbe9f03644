/** The shared password both the login route and the password route check.
    A bcrypt hash stored in the `secret` table under `shared_password_hash`
    takes precedence; without one (or with an empty one), the
    `SHARED_PASSWORD` environment variable is compared literally, and an
    unset or empty variable accepts nothing. bcrypt itself is opaque: its
    comparison and hashing are given as functions that may throw. */
module SharedPassword {
  import opened Wrappers
  import opened Json

  const HashKey: string := "shared_password_hash"

  /** The `secret` table: key to value. */
  type Secrets = map<string, string>

  /** `bcrypt.compare(candidate, hash)` and `bcrypt.hash(candidate, 10)`. */
  datatype Bcrypt = Bcrypt(compare: (Json, string) -> Result<bool, string>, hash: Json -> Result<string, string>)

  /** `secret?.value`, when truthy. */
  function StoredHash(secrets: Secrets): Option<string> {
    if HashKey in secrets && secrets[HashKey] != "" then Some(secrets[HashKey]) else None
  }

  /** `(process.env.SHARED_PASSWORD || "")` */
  function Fallback(sharedEnv: Option<string>): string {
    sharedEnv.GetOr("")
  }

  /** Whether `candidate` is the shared password: bcrypt decides when a
      hash is stored, otherwise the candidate must be exactly the non-empty
      fallback string. */
  function Check(secrets: Secrets, candidate: Json, sharedEnv: Option<string>, bcrypt: Bcrypt): (r: Result<bool, string>)
    ensures StoredHash(secrets).Some? ==> r == bcrypt.compare(candidate, StoredHash(secrets).value)
    ensures StoredHash(secrets).None? ==>
      r == Success(Fallback(sharedEnv) != "" && candidate == JStr(Fallback(sharedEnv)))
  {
    match StoredHash(secrets)
    case Some(h) => bcrypt.compare(candidate, h)
    case None =>
      var fallback := Fallback(sharedEnv);
      Success(|fallback| > 0 && candidate == JStr(fallback))
  }

  /** With no stored hash and no fallback, no candidate is accepted, not
      even the empty string. */
  lemma NothingConfiguredAcceptsNothing(secrets: Secrets, candidate: Json, sharedEnv: Option<string>, bcrypt: Bcrypt)
    requires StoredHash(secrets).None? && Fallback(sharedEnv) == ""
    ensures Check(secrets, candidate, sharedEnv, bcrypt) == Success(false)
  {
  }

  /** Once a hash is stored, the environment variable no longer matters. */
  lemma HashOverridesEnv(secrets: Secrets, candidate: Json, env1: Option<string>, env2: Option<string>, bcrypt: Bcrypt)
    requires StoredHash(secrets).Some?
    ensures Check(secrets, candidate, env1, bcrypt) == Check(secrets, candidate, env2, bcrypt)
  {
  }
}
