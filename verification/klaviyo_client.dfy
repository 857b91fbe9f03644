/** The Klaviyo REST client of lib/klaviyo.ts: every call builds its headers
    from the process environment first, then issues exactly one request to
    `KLAVIYO_BASE ++ path`, and turns a non-2xx status into a thrown error.
    The network is an oracle (`Transport`) from a request to a response or a
    transport error. */
module KlaviyoClient {
  import opened Wrappers
  import opened Json
  import Text

  const KlaviyoBase: string := "https://a.klaviyo.com"
  const DefaultRevision: string := "2024-10-15"
  const MissingKeyError: string := "KLAVIYO_API_KEY missing"

  /** The two environment variables the client reads; `None` is unset. */
  datatype Env = Env(apiKey: Option<string>, apiRevision: Option<string>)

  datatype Request = Request(
    verb: string,
    url: string,
    headers: map<string, string>,
    body: Option<Json>,
    noStore: bool)

  /** What `fetch` resolves to: the status, the body read by `res.json()`
      and the body read by `res.text()`; each read may fail. */
  datatype Response = Response(status: int, json: Result<Json, string>, text: Result<string, string>)

  /** The remote service: the environment the client reads and the network. */
  datatype Remote = Remote(env: Env, transport: Request -> Result<Response, string>)

  predicate IsOk(status: int) {
    200 <= status <= 299
  }

  /** An environment variable read with `||`: unset and empty are alike. */
  predicate Present(v: Option<string>) {
    v.Some? && v.value != ""
  }

  /** The header set of every request. It is refused exactly when the API
      key is unset or empty; the credential is the key behind the fixed
      scheme word, and the revision header is never empty. */
  function Headers(env: Env): (r: Result<map<string, string>, string>)
    ensures r.Failure? <==> !Present(env.apiKey)
    ensures r.Failure? ==> r.error == MissingKeyError
    ensures r.Success? ==>
      && r.value.Keys == {"Authorization", "revision", "content-type"}
      && r.value["Authorization"] == "Klaviyo-API-Key " + env.apiKey.value
      && r.value["revision"] != ""
      && (Present(env.apiRevision) ==> r.value["revision"] == env.apiRevision.value)
      && (!Present(env.apiRevision) ==> r.value["revision"] == DefaultRevision)
      && r.value["content-type"] == "application/json"
  {
    if !Present(env.apiKey) then Failure(MissingKeyError)
    else
      Success(map[
        "Authorization" := "Klaviyo-API-Key " + env.apiKey.value,
        "revision" := if Present(env.apiRevision) then env.apiRevision.value else DefaultRevision,
        "content-type" := "application/json"])
  }

  function ErrorMessage(verb: string, path: string, status: int, body: string): string {
    "Klaviyo " + verb + " " + path + " \U{2192} " + Text.IntToString(status) + " :: " + body
  }

  /** The thrown message names the method, the path and the status. */
  lemma ErrorMessageNames(verb: string, path: string, status: int, body: string)
    ensures Text.Contains(ErrorMessage(verb, path, status, body), verb)
    ensures Text.Contains(ErrorMessage(verb, path, status, body), path)
    ensures Text.Contains(ErrorMessage(verb, path, status, body), Text.IntToString(status))
  {
    var st := Text.IntToString(status);
    var msg := ErrorMessage(verb, path, status, body);
    assert msg == "Klaviyo " + verb + (" " + path + " \U{2192} " + st + " :: " + body);
    Text.ContainsMiddle("Klaviyo ", verb, " " + path + " \U{2192} " + st + " :: " + body);
    assert msg == "Klaviyo " + verb + " " + path + (" \U{2192} " + st + " :: " + body);
    Text.ContainsMiddle("Klaviyo " + verb + " ", path, " \U{2192} " + st + " :: " + body);
    assert msg == "Klaviyo " + verb + " " + path + " \U{2192} " + st + (" :: " + body);
    Text.ContainsMiddle("Klaviyo " + verb + " " + path + " \U{2192} ", st, " :: " + body);
  }

  /** The request the client hands to the network for a call. */
  function RequestFor(verb: string, path: string, headers: map<string, string>, body: Option<Json>): Request {
    Request(verb, KlaviyoBase + path, headers, body, verb == "GET")
  }

  /** Reading the answer of one call: a non-2xx status throws with the body
      text (or `''` when that read fails); a 2xx status yields the parsed
      body. */
  function Answer(verb: string, path: string, res: Response): (r: Result<Json, string>)
    ensures r.Success? <==> IsOk(res.status) && res.json.Success?
    ensures r.Success? ==> r.value == res.json.value
    ensures !IsOk(res.status) ==>
      && r.Failure?
      && Text.Contains(r.error, verb)
      && Text.Contains(r.error, path)
      && Text.Contains(r.error, Text.IntToString(res.status))
  {
    if !IsOk(res.status) then
      var body := match res.text case Success(t) => t case Failure(_) => "";
      ErrorMessageNames(verb, path, res.status, body);
      Failure(ErrorMessage(verb, path, res.status, body))
    else res.json
  }

  function Call(remote: Remote, verb: string, path: string, body: Option<Json>): (r: Result<Json, string>)
  {
    var headers :- Headers(remote.env);
    var res :- remote.transport(RequestFor(verb, path, headers, body));
    Answer(verb, path, res)
  }

  /** `kget(path)`. It fails without touching the network when the key is
      missing, otherwise it issues the one GET request for `path` and
      succeeds exactly when that request comes back 2xx with a JSON body. */
  function Get(remote: Remote, path: string): (r: Result<Json, string>)
    ensures !Present(remote.env.apiKey) ==> r == Failure(MissingKeyError)
    ensures Present(remote.env.apiKey) ==>
      var req := RequestFor("GET", path, Headers(remote.env).value, None);
      && req.url == KlaviyoBase + path
      && (r.Success? <==>
            && remote.transport(req).Success?
            && IsOk(remote.transport(req).value.status)
            && remote.transport(req).value.json.Success?)
      && (r.Success? ==> r.value == remote.transport(req).value.json.value)
  {
    Call(remote, "GET", path, None)
  }

  /** `kpost(path, body)`, with the same contract as `Get`, the JSON body
      travelling with the request. */
  function Post(remote: Remote, path: string, body: Json): (r: Result<Json, string>)
    ensures !Present(remote.env.apiKey) ==> r == Failure(MissingKeyError)
    ensures Present(remote.env.apiKey) ==>
      var req := RequestFor("POST", path, Headers(remote.env).value, Some(body));
      && req.url == KlaviyoBase + path
      && (r.Success? <==>
            && remote.transport(req).Success?
            && IsOk(remote.transport(req).value.status)
            && remote.transport(req).value.json.Success?)
      && (r.Success? ==> r.value == remote.transport(req).value.json.value)
  {
    Call(remote, "POST", path, Some(body))
  }

  /** A non-2xx answer to a GET surfaces as an error naming the method, the
      path and the status. */
  lemma GetRejectsNonOk(remote: Remote, path: string)
    requires Present(remote.env.apiKey)
    requires remote.transport(RequestFor("GET", path, Headers(remote.env).value, None)).Success?
    requires !IsOk(remote.transport(RequestFor("GET", path, Headers(remote.env).value, None)).value.status)
    ensures Get(remote, path).Failure?
    ensures var status := remote.transport(RequestFor("GET", path, Headers(remote.env).value, None)).value.status;
      && Text.Contains(Get(remote, path).error, "GET")
      && Text.Contains(Get(remote, path).error, path)
      && Text.Contains(Get(remote, path).error, Text.IntToString(status))
  {
  }

  /** Headers come first: the call's result depends on the network only
      through the single request for `path`. */
  lemma GetDependsOnlyOnItsRequest(env: Env, t1: Request -> Result<Response, string>,
                                   t2: Request -> Result<Response, string>, path: string)
    requires Present(env.apiKey) ==>
      t1(RequestFor("GET", path, Headers(env).value, None)) == t2(RequestFor("GET", path, Headers(env).value, None))
    ensures Get(Remote(env, t1), path) == Get(Remote(env, t2), path)
  {
  }
}
