# Emaldo newsletter archive — a Dafny model of its core

The archive imports sent email campaigns from Klaviyo into a `newsletter`
table and serves them to signed-in readers. This project models the server
logic behind that, as pure functions over immutable values:

- the two importers:
  - the "resilient" one in `route.ts`, with its three-URL listing fallback, its lenient campaign filter and the send-time check before the template lookup;
  - the admin-only sync in `app/api/admin/klaviyo/sync/route.ts`, with its `'Sent'` eligibility, its seven counters and the template lookup before the send-time check;
- the Klaviyo client they call (`lib/klaviyo.ts`);
- the edge middleware (`middleware.ts`);
- the shared-password login, the admin password change and the session probe (`app/api/simple-auth/login/route.ts`, `app/api/admin/password/route.ts`, `app/api/simple-auth/me/route.ts`);
- the listing query (`app/api/newsletters/route.ts`);
- the pure parts of the archive page (`app/archive/page.tsx`): normalization, search and year/month grouping.

Values the code reads from JSON are modelled as a `Json` datatype, with `None`
for `undefined`. The JavaScript operators the code relies on are given their
JavaScript meaning: `?.`, `||`, `??`, truthiness and `String(...)`.
`String(x)`, a template literal `${x}` and `new URL(x)` throw a TypeError
when `x` is an object carrying its own `toString` property (a JSON body can
carry one). Each place the code converts a value read from JSON models that
failure and where it goes:
- in the login body it leaves the credentials not yet assigned empty;
- in the resilient importer's filter and campaign-message URL it ends the run;
- in a message URL it fails only that message;
- on the archive page it empties the first load.
String lengths count UTF-16 code units, as JavaScript's `length` does.

The following are parameters:
- the network, as a transport from a request to a response or an error;
- the environment variables;
- the `secret` table;
- the opaque library calls: bcrypt, DOMPurify, `new Date`, the URL parser, `decodeURIComponent` and `crypto.randomUUID`.

The database is a value: a map from message id to record, plus the list of
import-log rows, whose positions are the row ids.

Modules:

- `Wrappers`: `Option` and `Result`.
- `Text`: trimming, ASCII lower-casing, splitting, substring search, decimal rendering.
- `Json`: the value model and the operators.
- `Uri`: `encodeURIComponent`.
- `Seqs`: filter, stable descending sort, take.
- `Store`: the tables.
- `KlaviyoClient`: `lib/klaviyo.ts`.
- `ImportSteps`: the steps the two importers share verbatim.
- `ResilientImport` and `AdminSync`: the two importers.
- `AdminGuard`: the shared admin check.
- `Middleware`, `SharedPassword`, `Login`, `PasswordChange`, `Me`, `NewslettersQuery` and `Archive`: one module per remaining source file.

The cookie names are modelled exactly as written:
- the login sets `ea_auth` and `ea_email`, and the middleware reads `ea_auth`;
- the admin check reads `emaldo_email`;
- the session probe reads `emaldo_email` and `emaldo_auth`.

`Me.OkNeedsEmaldoAuth` states the consequence: the probe never reports a
session from the login's own cookies alone.

## Model

| member | source | states |
|---|---|---|
| `KlaviyoClient.Headers` | lib/klaviyo.ts:3-11 | refused with `KLAVIYO_API_KEY missing` exactly when the key is unset or empty; otherwise exactly the three headers, the credential `Klaviyo-API-Key <key>`, the revision from the environment or `2024-10-15`, JSON content type |
| `KlaviyoClient.Answer` | lib/klaviyo.ts:15-19 | succeeds exactly on a 2xx status with a parsed body, yielding that body; a non-2xx status fails with a message naming method, path and status |
| `KlaviyoClient.ErrorMessageNames` | lib/klaviyo.ts:17 | the thrown message contains the method, the path and the status |
| `KlaviyoClient.Get` | lib/klaviyo.ts:13-20 | without a key it fails before any request; otherwise it sends one GET to `https://a.klaviyo.com` + path and succeeds exactly when that answer is 2xx with a JSON body, returning that body |
| `KlaviyoClient.Post` | lib/klaviyo.ts:22-29 | the same contract for POST, with the body carried by the request |
| `KlaviyoClient.GetRejectsNonOk` | lib/klaviyo.ts:15-18 | a non-2xx answer to a GET is an error naming `GET`, the path and the status |
| `KlaviyoClient.GetDependsOnlyOnItsRequest` | lib/klaviyo.ts:13-14 | two networks that agree on the one request for the path give the same result |
| `Json.ToText` | route.ts:80 | `String(x)` returns exactly when no object in `x` carries its own `toString`, with the JavaScript rendering; otherwise it throws the conversion TypeError |
| `Json.ValueToText` | app/api/simple-auth/login/route.ts:19-20 | `String(v)` for a possibly undefined value: `undefined` for a missing one, otherwise as `ToText` |
| `ResilientImport.FirstSuccessIndex` | route.ts:43-54 | the position of the first answer that did not throw: every earlier answer threw |
| `ResilientImport.FirstSuccess` | route.ts:43-56 | fails exactly when every answer threw, then with the fixed exhaustion message; otherwise it is the first successful answer |
| `ResilientImport.TryCampaignList` | route.ts:17-56 | tries the and-filter URL, then the channel-only URL, then the unfiltered URL, all for the same cursor; the first GET that succeeds gives the page; it fails, with `All campaign list variants failed (404).`, only when all three fail |
| `ResilientImport.Channel` | route.ts:76-79 | the channel is the first non-nullish of the first message's channel, `message_channel` and `channel`, else null |
| `ResilientImport.EmptyFirstChannelShadows` | route.ts:74-82 | an empty first-message channel hides the other two (`??`), so such a campaign is kept only for status `sent` |
| `ResilientImport.StatusCaseMatters` | route.ts:80-81 | the status test is exact (`Sent` with no channel is dropped) while the channel test ignores case |
| `ResilientImport.MessageStep` | route.ts:92-191 | no truthy message id means skip; an id that does not convert, or a failing metadata GET, is a swallowed failure with that error; no truthy send time means skip before any template call; a failing template GET is a failure; no template id means skip; otherwise the message goes on to `Deliver`; a write happens only for a string id and is the upsert on it |
| `ResilientImport.Deliver` | route.ts:131-187 | a failing render is a failure with its error; otherwise the write of the draft's content on the id, a write that cannot be done being a failure with its error; what is written lands as the upsert on the string id with that content |
| `ResilientImport.Record` | route.ts:159-190 | a write replaces the store and adds one to `added` when it created the record, one to `updated` otherwise; a skip or swallowed failure changes nothing; the state only grows |
| `ResilientImport.Messages` | route.ts:92-192 | over a campaign's messages no id is lost, `added` rises by exactly the number of new ids, each message adds at most one to `added` + `updated`, only the messages' own string ids can appear, and every other record is untouched |
| `ResilientImport.MessagesAppend` | route.ts:92-192 | handling `a + b` is handling `a`, then `b` from where `a` left off |
| `ResilientImport.FailureIsolated` | route.ts:93-191 | a message that is skipped or throws leaves the messages after it exactly as if it were absent |
| `ResilientImport.MessagesAround` | route.ts:92-192 | a message in the middle of a list is handled in the state the messages before it leave, and the rest go on from there |
| `ResilientImport.WriteLands` | route.ts:154-187 | a message whose handling writes is in the final store, with the record it wrote unless a later message has the same id, and its write is counted as added or updated |
| `ResilientImport.BrokenIndex` | route.ts:84-90 | the position of the first kept campaign whose messages cannot be listed, or the length when there is none: every campaign before it can be listed |
| `ResilientImport.Campaigns` | route.ts:84-193 | over the kept campaigns no id is lost, no counter goes down, and `added` rises by exactly the number of new ids |
| `ResilientImport.CampaignsFail` | route.ts:84-90 | the walk fails exactly when some kept campaign with a truthy id cannot have its messages listed (the GET fails or the id does not convert) |
| `ResilientImport.CampaignsFirstError` | route.ts:84-90 | a failed walk fails with the error of the first such campaign |
| `ResilientImport.PageTurn` | route.ts:68-82 | one pass: a failed listing aborts with its error; a filter whose `String(channel \|\| '')` throws on some listed campaign aborts with the conversion error; otherwise the kept campaigns are walked by `PageKept` |
| `ResilientImport.PageKept` | route.ts:84-197 | a failed walk aborts with its error; a next link that does not parse aborts with its error; an empty next cursor finishes with the walked state; a non-empty one goes on with it from that state |
| `ResilientImport.Pages` | route.ts:68-197 | the loop only grows the state; with no fuel it has not ended; otherwise a pass that stops (listing failure, throwing filter, failed walk, bad next link, or empty cursor) is the loop's outcome |
| `ResilientImport.PagesContinue` | route.ts:196-197 | a pass that goes on is followed by the loop from the next cursor and the state the pass left |
| `ResilientImport.Run` | route.ts:59-224 | exactly one log row is appended; it ends SUCCESS with the note `added=…, updated=…` exactly when the reply carries those counters, ERROR with the message exactly when the reply is the error, and stays RUNNING only without a reply; records are never removed; on success the table grew by `added`; the final table is the page loop's, a finished loop gives its counters, an aborted one its error |
| `ResilientImport.SuccessNoteInjective` | route.ts:203 | the SUCCESS note determines both counters |
| `ResilientImport.MissingKeyFails` | route.ts:17-56 | without an API key a run ends with the exhaustion error and writes no newsletter |
| `ResilientImport.FirstListingFailureFails` | route.ts:68-69 | a first listing that fails ends the run with its error, an ERROR log row, and no record written |
| `ImportSteps.SendTime` | route.ts:101-104 | the first truthy of the first send time and the campaign send time, so an empty string counts as missing |
| `ImportSteps.NextCursor` | route.ts:196 | an untruthy next link gives no cursor; a truthy one that does not convert throws the conversion error; otherwise the parsed `page[cursor]` of the link |
| `ImportSteps.FetchCampaignMessages` | route.ts:89-90 | an id that does not convert throws before the request; otherwise a failing GET is its error, and a success gives the reply's `data` when it is an array, else none |
| `ImportSteps.FetchMeta` | route.ts:98 | an id that does not convert throws before the request; otherwise the metadata GET for the id |
| `ImportSteps.IdsSplit` | route.ts:92-95 | the string ids of a non-empty list are the first message's and the rest's |
| `ImportSteps.FallbackTemplateId` | route.ts:120-127 | a failing template-endpoint call reads as no id |
| `ImportSteps.ResolveTemplateId` | route.ts:111-128 | relationship id if truthy, else the first `included` entry of type `template`, else the endpoint's id, else none; the result is always truthy or none |
| `ImportSteps.FetchTemplateId` | route.ts:111-128 | a failing `?include=template` GET is its error; otherwise the resolved id, which is truthy when present |
| `ImportSteps.DraftOf` | route.ts:139-149 | subject is content subject, else campaign name, else `Newsletter` (never falsy); html defaults to `''`; from-email, preview text and text default to null |
| `ImportSteps.OrNull` | route.ts:144-146 | `v ?? null`: the value unless undefined or null |
| `ImportSteps.TextColumn` | route.ts:163 | a required text column accepts exactly a string |
| `ImportSteps.NullableTextColumn` | route.ts:164-168 | a nullable text column accepts exactly a string or null |
| `ImportSteps.ContentOf` | route.ts:151-168 | the row is written exactly when every column has a value of its type and the date is valid; the html is the sanitized render |
| `ImportSteps.Persist` | route.ts:155-187 | succeeds exactly for a string message id, valid content and, for a new id, a string campaign id; the result is the upsert on that id |
| `ImportSteps.Write` | route.ts:139-187 | the write succeeds exactly for a string id, a valid draft content and, for a new id, a string campaign id; it then lands as the upsert on the id with that content, keys grow by the id, it creates exactly when the id was absent, and nothing else changes |
| `Store.Upsert` | route.ts:155-187 | keys become the old keys plus the id; it creates exactly when the id was absent; an existing record keeps campaign id and tags; a new one has no tags; other records are untouched; well-keyedness is kept |
| `Store.UpsertIdempotent` | route.ts:154-187 | writing the same message twice is an update that changes nothing |
| `Store.OpenLog` | route.ts:60 | appends one RUNNING row at the end, whose position is its id |
| `Store.CloseLog` | route.ts:199-217 | only the row with the given id changes, to the given status and note |
| `AdminGuard.AdmittedIgnoresCase` | app/api/admin/klaviyo/sync/route.ts:11-16 | admission ignores the case of both the cookie and `ADMIN_EMAIL` |
| `AdminGuard.MissingCookie` | app/api/admin/password/route.ts:7-12 | a request without the cookie is admitted exactly when `ADMIN_EMAIL` is unset or empty |
| `AdminSync.MessageStep` | app/api/admin/klaviyo/sync/route.ts:62-164 | no truthy message id means skip; an id that does not convert, a failing metadata GET or a failing include-template GET is a swallowed failure with that error; no template id is counted as no-template before the send time is looked at; otherwise the message goes on to `Deliver`; a write happens only for a string id and is the upsert on it |
| `AdminSync.Deliver` | app/api/admin/klaviyo/sync/route.ts:94-160 | a failing render is a failure with its error; then a missing send time counts the message as not sent (after the render call); otherwise the write of the draft's content, a write that cannot be done being a failure; what is written lands as the upsert on the string id with that content |
| `AdminSync.Record` | app/api/admin/klaviyo/sync/route.ts:89-160 | a write replaces the store and adds one to `added` when it created the record, one to `updated` otherwise; no template adds one to `noTemplate`, a missing send time one to the messages not sent; skips and failures change nothing; no campaign counter moves |
| `AdminSync.Messages` | app/api/admin/klaviyo/sync/route.ts:62-165 | over a campaign's messages no id is lost and no counter goes down, each message settles at most one counter, the campaign counters and message total are untouched, only the messages' own string ids can appear, and every other record is untouched |
| `AdminSync.MessagesAppend` | app/api/admin/klaviyo/sync/route.ts:62-165 | handling `a + b` is handling `a`, then `b` from where `a` left off |
| `AdminSync.WriteLands` | app/api/admin/klaviyo/sync/route.ts:127-160 | a message whose handling writes is in the final store, with the record it wrote unless a later message has the same id, and its write is counted as added or updated |
| `AdminSync.BrokenIndex` | app/api/admin/klaviyo/sync/route.ts:46-60 | the position of the first eligible campaign whose messages cannot be listed, or the length when there is none: every campaign before it can be listed |
| `AdminSync.Campaigns` | app/api/admin/klaviyo/sync/route.ts:46-166 | over a page the listed total is untouched, each campaign is classified eligible or not-sent at most once, and the messages counted always cover the messages settled |
| `AdminSync.CampaignsFail` | app/api/admin/klaviyo/sync/route.ts:46-60 | the walk fails exactly when some campaign with a truthy id and status `Sent` cannot have its messages listed |
| `AdminSync.CampaignsFirstError` | app/api/admin/klaviyo/sync/route.ts:46-60 | a failed walk fails with the error of the first such campaign |
| `AdminSync.CampaignCounts` | app/api/admin/klaviyo/sync/route.ts:46-60 | a walk that does not fail adds the number of campaigns with a truthy id and status `Sent` to `eligible`, the number with a truthy id and another status to `campaignsNotSent`, and the eligible ones' message counts to `totalMessages` |
| `AdminSync.PageTurn` | app/api/admin/klaviyo/sync/route.ts:37-44 | one pass: a failed listing aborts with its error; otherwise the listed page is handled by `PageListed` |
| `AdminSync.PageListed` | app/api/admin/klaviyo/sync/route.ts:43-172 | counts the page's campaigns and walks them; a failed walk aborts with its error; a next link that does not parse aborts; an empty next cursor finishes with the walked state; a non-empty one goes on with it |
| `AdminSync.Pages` | app/api/admin/klaviyo/sync/route.ts:37-172 | the loop keeps the counter bounds and only grows the state; with no fuel it has not ended; a pass that stops is the loop's outcome; a finished loop counts every listed campaign, the eligible ones, the ones with an id and another status, and the message counts of the eligible ones, over the pages the next links lead to |
| `AdminSync.PagesContinue` | app/api/admin/klaviyo/sync/route.ts:168-172 | a pass that goes on is followed by the loop from the next cursor and the state the pass left |
| `AdminSync.ListedCounts` | app/api/admin/klaviyo/sync/route.ts:43-60 | a pass over a listed page that does not fail counts its campaigns, its eligible ones, its not-sent ones and their message counts |
| `AdminSync.TurnCounts` | app/api/admin/klaviyo/sync/route.ts:42-60 | a pass that does not fail listed its page and counted it |
| `AdminSync.TurnVisits` | app/api/admin/klaviyo/sync/route.ts:168-172 | the pages the loop lists after a pass that does not fail are the ones its next link leads to |
| `AdminSync.CountsCompose` | app/api/admin/klaviyo/sync/route.ts:44-60 | counting one page and then the rest counts both together |
| `AdminSync.NoteInjective` | app/api/admin/klaviyo/sync/route.ts:179 | two reports with the same note are the same report |
| `AdminSync.Run` | app/api/admin/klaviyo/sync/route.ts:9-211 | 403 exactly when the admin check fails, with both tables untouched; otherwise the log row ends SUCCESS with the report's note exactly on a 200, ERROR with the message exactly on a 500; records are never removed; added = new ids; a 200 reports `totalCampaigns` = all listed campaigns, `eligibleSent` = those with an id and status `Sent`, `totalMessages` = their message counts, and `skippedNotSent` at least the campaigns with an id and another status; the final table is the page loop's |
| `AdminSync.FirstListingFailureFails` | app/api/admin/klaviyo/sync/route.ts:37-42 | an admitted run whose first listing fails ends with that error, an ERROR log row, and no record written |
| `Middleware.EndsWithExtensionIff` | middleware.ts:21 | the backward scan decides exactly the regular expression `/\.[a-zA-Z0-9]+$/` |
| `Middleware.TrailingAlnum` | middleware.ts:21 | the length of the run of ASCII letters and digits the path ends with |
| `Middleware.SetParam` | middleware.ts:44 | `searchParams.set`: other parameters are kept in order and the key occurs exactly once, with the new value |
| `Middleware.DropKey` | middleware.ts:44 | removes every pair with the key and keeps the others in order |
| `Middleware.Handle` | middleware.ts:25-49 | an open path passes with `x-mw: open`; otherwise `ea_auth` exactly `1` passes uncached; otherwise a 307 to `/signin` carrying the path, or `/archive` for an empty path, as `redirect` |
| `Middleware.RedirectTargetIsOpen` | middleware.ts:8-16 | following the redirect never redirects again |
| `Middleware.PrefixIsRaw` | middleware.ts:19 | the prefix test is on raw strings: `/signinfoo` and `/publicity` are open |
| `Middleware.FilesAreOpen` | middleware.ts:20-21 | any path ending in a dot and an alphanumeric extension passes without a session |
| `SharedPassword.Check` | app/api/simple-auth/login/route.ts:44-50 | a non-empty stored hash alone decides, through bcrypt; otherwise the candidate must equal the non-empty `SHARED_PASSWORD` |
| `SharedPassword.NothingConfiguredAcceptsNothing` | app/api/admin/password/route.ts:25-30 | with no hash and no fallback, nothing is accepted, not even the empty string |
| `SharedPassword.HashOverridesEnv` | app/api/simple-auth/login/route.ts:45-49 | once a hash is stored, `SHARED_PASSWORD` no longer matters |
| `Login.Handle` | app/api/simple-auth/login/route.ts:13-88 | missing email or password gives 400 first; no allowed domain gives 500 next; a domain mismatch gives 400; then a secret lookup or password check that throws gives 500 `Auth check failed`, a check that says no gives 401 clearing both cookies, and 200 exactly for valid input whose check succeeds, setting `ea_auth=1` and `ea_email` with no-store; status is one of 200, 400, 401, 500 |
| `Login.Credentials` | app/api/simple-auth/login/route.ts:15-23 | a body that does not parse, or an email whose `String` throws, leaves both empty; a password whose `String` throws leaves only it empty; otherwise the trimmed email and the password as sent |
| `Login.ThrowingPasswordIsMissing` | app/api/simple-auth/login/route.ts:17-29 | a password field holding an object with its own `toString` is answered as a missing password |
| `Login.DomainOfAddress` | app/api/simple-auth/login/route.ts:26 | the domain of `local@domain` is the lower-cased `domain` |
| `Login.DomainIgnoresAfterSecondAt` | app/api/simple-auth/login/route.ts:26 | only the text between the first and second `@` is checked |
| `Login.SessionCookieShape` | app/api/simple-auth/login/route.ts:68-74 | the session cookie is `1`, HTTP-only, lives 28800 seconds, and is secure exactly in production |
| `PasswordChange.Handle` | app/api/admin/password/route.ts:6-44 | 403 exactly when the admin check fails; a falsy or short new password gives 400 before the current one is checked; 200 exactly when admitted, the new password is long enough, the current one passes and hashing succeeds, and then the table maps the hash key to the new hash; the table changes only on 200; for a long enough new password, a current password the check rejects gives 401 `Current password is incorrect` with the table unchanged, and a `bcrypt.compare` or `bcrypt.hash` that throws gives a bodiless 500 with the table unchanged; 401 only when the check says no |
| `PasswordChange.ChangeReplacesPassword` | app/api/admin/password/route.ts:36-41 | after a change to a non-empty hash, bcrypt against it alone decides the shared password |
| `PasswordChange.LengthCountsCodeUnits` | app/api/admin/password/route.ts:18 | the length test counts UTF-16 code units: four characters outside the Basic Multilingual Plane pass it, eight characters always pass, fewer than four never do |
| `Text.Utf16Length` | app/api/admin/password/route.ts:18 | between the number of characters and twice it, and equal to it exactly when no character lies outside the Basic Multilingual Plane |
| `Me.MapAll` | app/api/simple-auth/me/route.ts:9 | applying a throwing step to every piece: fails exactly when some piece fails, otherwise one result per piece |
| `Me.PairsOf` | app/api/simple-auth/me/route.ts:9 | the two-piece entries in their order, each read as a pair: pair `k` is the `k`-th list of length two; every pair comes from an entry and every two-piece entry gives one |
| `Me.PairsOfAppend` | app/api/simple-auth/me/route.ts:9 | the pairs of two lists of entries, one after the other, are the pairs of the first and then of the second |
| `Me.FromEntries` | app/api/simple-auth/me/route.ts:8-10 | the keys are exactly the names of the pairs |
| `Me.FromEntriesAppend` | app/api/simple-auth/me/route.ts:8-10 | building from two runs of pairs is the first run's object overridden by the second's |
| `Me.FromEntriesLastWins` | app/api/simple-auth/me/route.ts:8-10 | the last pair with a name gives its value |
| `Me.PairsLastWins` | app/api/simple-auth/me/route.ts:8-10 | the two-piece entry `[name, value]` at a position decides the name's value when no later two-piece entry has that name |
| `Me.NameAbsent` | app/api/simple-auth/me/route.ts:8-10 | a name that no two-piece entry from a position on carries is not a key of their object |
| `Me.CookieLastWins` | app/api/simple-auth/me/route.ts:7-10 | for a whole `Cookie` header: the entry decoding to `[name, value]` gives the map's value for `name` when no later entry decodes to a pair with that name, so a later cookie of one name overrides an earlier one |
| `Me.NoHeaderNoCookies` | app/api/simple-auth/me/route.ts:7-10 | a missing header reads as `""` and gives an empty map, given that decoding `""` returns |
| `Me.NoHeaderReply` | app/api/simple-auth/me/route.ts:7-15 | without cookies the reply is not signed in, has an empty email, and reports `isAdmin` exactly when `ADMIN_EMAIL` lower-cases to `""` |
| `Me.Handle` | app/api/simple-auth/me/route.ts:3-16 | a server error exactly when decoding throws; `ok` exactly when `emaldo_auth` is `ok`; the email is `emaldo_email` or empty; `isAdmin` is the case-insensitive comparison with `ADMIN_EMAIL` |
| `Me.OkNeedsEmaldoAuth` | app/api/simple-auth/me/route.ts:14 | `ok` needs a cookie entry decoding to `emaldo_auth=ok` |
| `NewslettersQuery.Handle` | app/api/newsletters/route.ts:4-15 | at most 200 items, newest first, each a row of the table that matches the trimmed query, and no row more often than the table holds it |
| `Seqs.SortKeepsTies` | app/archive/page.tsx:29 | the descending sort is stable: filtering its output by any one key gives the input filtered by that key |
| `Seqs.InsertKeepsTies` | app/archive/page.tsx:29 | inserting an element into a descending list puts it ahead of the elements with its key |
| `Seqs.FilterMultiset` | app/api/newsletters/route.ts:13 | filtering keeps no element more often than it occurs |
| `NewslettersQuery.NothingNewerLeftOut` | app/api/newsletters/route.ts:13 | a matching row not listed means the page is full of rows at least as recent |
| `NewslettersQuery.BlankQueryListsAll` | app/api/newsletters/route.ts:6-12 | a blank query filters nothing: the newest 200 rows |
| `NewslettersQuery.NullPreviewNeedsSubject` | app/api/newsletters/route.ts:7-12 | a listed row with a null preview text matched on its subject |
| `NewslettersQuery.ItemsFromStore` | app/api/newsletters/route.ts:13-14 | every listed item is the store's record for its id |
| `Archive.NormalizeItem` | app/archive/page.tsx:23-28 | a missing subject becomes `""`, a missing preview text null, a missing id a fresh uuid, a missing date the clock's reading for that element |
| `Archive.Normalize` | app/archive/page.tsx:13-30 | one entry per raw element, a permutation of the mapped list, sorted newest first |
| `Archive.NormalizeKeepsTies` | app/archive/page.tsx:29 | the sort is stable: the entries with any one time keep the order of the mapped list |
| `Archive.NormalizedFromRaw` | app/archive/page.tsx:22-28 | each entry is the normalization of some raw element |
| `Archive.RawListPriority` | app/archive/page.tsx:14-20 | a top-level array wins, then `items`, then `data` |
| `Archive.NoArrayNoEntries` | app/archive/page.tsx:14-20 | a reply carrying no array gives no entries |
| `Archive.NormalizeResponse` | app/archive/page.tsx:22-29 | throws exactly when some element's `String(...)` of its id, subject or date throws; otherwise the normalized entries |
| `Archive.Loaded` | app/archive/page.tsx:41-51 | the first load shows no entries when the fetch or the normalization throws; otherwise one entry per raw element, sorted newest first, a permutation of the mapped list |
| `Archive.Reloaded` | app/archive/page.tsx:57-67 | the reload after an import keeps the entries as they were when the fetch or the normalization throws; otherwise the same as a first load |
| `Archive.ThrowingSubjectEmptiesLoad` | app/archive/page.tsx:25-49 | one element whose subject is an object with its own `toString` leaves the first load empty |
| `Archive.Search` | app/archive/page.tsx:69-81 | a blank query returns the list unchanged; it throws exactly when the callback throws on some entry; otherwise it returns a subsequence whose entries match subject, preview or date |
| `Archive.SearchMembers` | app/archive/page.tsx:73-80 | an entry is kept exactly when it is in the list and the callback accepts it |
| `Archive.SubjectShortCircuits` | app/archive/page.tsx:76-78 | a subject match keeps the entry without looking at the preview text |
| `Archive.KeysDescOrdered` | app/archive/page.tsx:94-97 | the sorted keys are the map's keys, each once, strictly descending |
| `Archive.AddBucketed` | app/archive/page.tsx:85-93 | one loop turn keeps every bucket equal to its entries so far, in order, and non-empty |
| `Archive.Group` | app/archive/page.tsx:83-100 | years strictly descending; months strictly descending within a year; each month holds exactly the entries of that year and month in list order and is non-empty; every entry's year and month is present |
| `Archive.BucketMembers` | app/archive/page.tsx:85-93 | a bucket holds an entry exactly when the entry is in the list with that year and month |

## Left out

- Network, Prisma and the clock: the network is a transport parameter; the tables are values.
  - Prisma failures other than a rejected column value are not modelled.
  - The column types of `newsletter` are inferred from the writes, since the schema is not part of this model.
  - `finishedAt` timestamps are not modelled.
- `Text.Lower` lower-cases ASCII letters only; JavaScript's Unicode case mapping is not modelled.
- `Text.Trim` follows the ECMAScript whitespace and line-terminator set.
- Numbers in JSON values are integers; floating point and `NaN` are not modelled.
  - An invalid date is an error at the database write (`parseDate` gives `None`).
  - On the archive page, a `sentAt` that does not parse has an opaque integer time, not `NaN`.
- `ResilientImport.Run` and `AdminSync.Run` bound the page loop by fuel. When the fuel runs out the run has no reply and its log row stays RUNNING, which stands for a run that has not ended.
- AdminSync.Pages: a finished loop states exact counts for the campaign counters and message total only. `noTemplate`, the messages not sent, `added` and `updated` are bounded by the number of messages handled. `added` is exact only in `AdminSync.Run`, as the number of new ids.
- A `new Date(x)` that throws on an object with its own `toString` is folded into `parseDate` giving `None`, the same as an invalid date.
- A next link that `new URL` cannot parse reaches the importers as a failure of the opaque cursor parameter.
- The `e?.message ?? 'unknown'` fallbacks in the log notes are not modelled: every modelled error carries a message.
- DOMPurify, bcrypt, `new URL(...).searchParams`, `decodeURIComponent`, `new Date`, `toLocaleString`, `getFullYear`, `getMonth` and `crypto.randomUUID` are opaque parameters.
  - In `Archive.NormalizeItem` the uuid and the clock reading of an entry depend on its position. The clock is not assumed to increase.
- PasswordChange.Handle: the `secret` lookup is assumed not to throw. `value.length` is taken only for strings and arrays; an object with its own `length` property is not modelled.
- Login.Handle: `res.json` headers other than `Cache-Control` are not modelled; the cookie options are modelled as the record the route passes.
- NewslettersQuery.Handle: the order among rows with equal `sentAt` is the database's and is left open. The model sorts stably from the given row order.
- The debug route (`app/api/admin/klaviyo/debug/route.ts`) and the logout route are not part of this model: the first is diagnostic I/O and the second only clears cookies.
- Also not part of this model:
  - `next.config.mjs`;
  - the middleware `matcher`;
  - the React pages and components, including the JSX of `app/archive/page.tsx`;
  - concurrent import runs.
