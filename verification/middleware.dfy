/** The edge middleware of middleware.ts. A path on the open list, or one
    that looks like a file, goes through untouched. A request carrying the
    `ea_auth=1` cookie goes through uncached. Anything else is redirected
    (307) to `/signin` with the original path in the `redirect` query
    parameter. */
module Middleware {
  import opened Wrappers
  import Text
  import Seqs

  const AuthCookie: string := "ea_auth"

  const OpenPrefixes: seq<string> :=
    ["/signin", "/api/simple-auth", "/_next", "/favicon.ico", "/robots.txt", "/sitemap.xml", "/public"]

  /** `OPEN_PREFIXES.some(p => pathname === p || pathname.startsWith(p))`:
      a raw string prefix, so `/signinfoo` and `/publicity` count too. */
  predicate OpenByPrefix(path: string) {
    exists i | 0 <= i < |OpenPrefixes| :: path == OpenPrefixes[i] || Text.StartsWith(path, OpenPrefixes[i])
  }

  /** What `/\.[a-zA-Z0-9]+$/` matches: a dot followed by one or more ASCII
      letters or digits running to the end of the path. */
  predicate LooksLikeFile(path: string) {
    exists k | 0 <= k < |path| - 1 ::
      path[k] == '.' && forall j | k < j < |path| :: Text.IsAsciiAlnum(path[j])
  }

  /** The number of ASCII letters and digits the path ends with. */
  function TrailingAlnum(s: string): (n: nat)
    ensures n <= |s|
    ensures forall j | |s| - n <= j < |s| :: Text.IsAsciiAlnum(s[j])
    ensures n < |s| ==> !Text.IsAsciiAlnum(s[|s| - n - 1])
  {
    if |s| > 0 && Text.IsAsciiAlnum(s[|s| - 1]) then
      var m := TrailingAlnum(s[..|s| - 1]);
      assert forall j | |s| - 1 - m <= j < |s| - 1 :: s[j] == s[..|s| - 1][j];
      m + 1
    else 0
  }

  /** The regular expression checked by a scan from the end: a non-empty
      run of letters and digits with a dot just before it. */
  predicate EndsWithExtension(path: string) {
    var n := TrailingAlnum(path);
    0 < n < |path| && path[|path| - n - 1] == '.'
  }

  /** The scan decides exactly what the regular expression matches. */
  lemma EndsWithExtensionIff(path: string)
    ensures EndsWithExtension(path) <==> LooksLikeFile(path)
  {
    var n := TrailingAlnum(path);
    if EndsWithExtension(path) {
      var k := |path| - n - 1;
      assert path[k] == '.' && forall j | k < j < |path| :: Text.IsAsciiAlnum(path[j]);
    }
    if LooksLikeFile(path) {
      var k :| 0 <= k < |path| - 1 && path[k] == '.' && forall j | k < j < |path| :: Text.IsAsciiAlnum(path[j]);
      assert Text.IsAsciiAlnum(path[|path| - 1]);
      assert !Text.IsAsciiAlnum(path[k]);
      assert n == |path| - k - 1;
    }
  }

  /** `isOpen(pathname)` */
  predicate IsOpen(path: string) {
    OpenByPrefix(path) || EndsWithExtension(path)
  }

  /** A URL as the middleware handles it: the path and the query
      parameters in order (duplicates allowed). */
  datatype Url = Url(path: string, query: seq<(string, string)>)

  /** `searchParams.set(key, value)`: the first pair with `key` takes the
      new value and the later ones are dropped; with no such pair, one is
      appended. */
  function SetParam(query: seq<(string, string)>, key: string, value: string): (r: seq<(string, string)>)
    ensures Seqs.Filter(r, (p: (string, string)) => p.0 != key) == Seqs.Filter(query, (p: (string, string)) => p.0 != key)
    ensures Seqs.Filter(r, (p: (string, string)) => p.0 == key) == [(key, value)]
    ensures (key, value) in r
  {
    if query == [] then [(key, value)]
    else if query[0].0 == key then [(key, value)] + DropKey(query[1..], key)
    else [query[0]] + SetParam(query[1..], key, value)
  }

  /** The pairs whose key is not `key`, in order. */
  function DropKey(query: seq<(string, string)>, key: string): (r: seq<(string, string)>)
    ensures Seqs.Filter(r, (p: (string, string)) => p.0 != key) == Seqs.Filter(query, (p: (string, string)) => p.0 != key)
    ensures Seqs.Filter(r, (p: (string, string)) => p.0 == key) == []
  {
    if query == [] then []
    else if query[0].0 == key then DropKey(query[1..], key)
    else [query[0]] + DropKey(query[1..], key)
  }

  datatype Action = Next | Redirect(status: int, location: Url)

  datatype Response = Response(action: Action, headers: map<string, string>)

  /** `middleware(req)`, given the request URL and the value of the
      `ea_auth` cookie (`None` when absent). */
  function Handle(url: Url, authCookie: Option<string>): (r: Response)
    ensures IsOpen(url.path) ==> r == Response(Next, map["x-mw" := "open"])
    ensures !IsOpen(url.path) && authCookie == Some("1") ==>
      r == Response(Next, map["Cache-Control" := "no-store", "x-mw" := "pass"])
    ensures !IsOpen(url.path) && authCookie != Some("1") ==>
      && r.action.Redirect?
      && r.action.status == 307
      && r.action.location.path == "/signin"
      && (url.path != "" ==> (("redirect", url.path) in r.action.location.query))
      && (url.path == "" ==> (("redirect", "/archive") in r.action.location.query))
      && r.action.location.query == SetParam(url.query, "redirect", if url.path != "" then url.path else "/archive")
      && r.headers == map["x-mw" := "redirect-signin"]
  {
    if IsOpen(url.path) then Response(Next, map["x-mw" := "open"])
    else if authCookie == Some("1") then Response(Next, map["Cache-Control" := "no-store", "x-mw" := "pass"])
    else
      var back := if url.path != "" then url.path else "/archive";
      Response(Redirect(307, Url("/signin", SetParam(url.query, "redirect", back))), map["x-mw" := "redirect-signin"])
  }

  /** The sign-in page is open, so following the redirect never redirects
      again, signed in or not. */
  lemma RedirectTargetIsOpen(url: Url, authCookie: Option<string>)
    requires Handle(url, authCookie).action.Redirect?
    ensures Handle(Handle(url, authCookie).action.location, authCookie).action == Next
  {
    assert Text.StartsWith("/signin", OpenPrefixes[0]);
  }

  /** The prefix test is on raw strings, not path segments. */
  lemma PrefixIsRaw()
    ensures IsOpen("/signinfoo")
    ensures IsOpen("/publicity")
  {
    assert Text.StartsWith("/signinfoo", OpenPrefixes[0]);
    assert Text.StartsWith("/publicity", OpenPrefixes[6]);
  }

  /** Any path with a file extension is served without a session. */
  lemma FilesAreOpen(dir: string, name: string, ext: string)
    requires ext != [] && forall j | 0 <= j < |ext| :: Text.IsAsciiAlnum(ext[j])
    ensures Handle(Url(dir + name + "." + ext, []), None).action == Next
  {
    var path := dir + name + "." + ext;
    var k := |dir + name|;
    assert path[k] == '.';
    assert forall j | k < j < |path| :: path[j] == ext[j - k - 1];
    EndsWithExtensionIff(path);
  }
}
