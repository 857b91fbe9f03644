/** The "resilient" importer of route.ts. Each page of campaigns is listed
    through a three-URL fallback chain, kept by a lenient test (status
    `'sent'` or an email channel), and walked campaign by campaign and
    message by message. A message is skipped when it has no send time, which
    is checked before its template is looked up. Every message that gets
    through is rendered and upserted on its message id. Failures inside a
    message are swallowed; failures in listing, message listing or cursor
    parsing end the run. One import-log row records the run. */
module ResilientImport {
  import opened Wrappers
  import opened Json
  import Text
  import Seqs
  import KlaviyoClient
  import Store
  import opened ImportSteps

  /** The two filter expressions of the listing URLs as `encodeURIComponent`
      leaves them: `,` becomes `%2C` and `"` becomes `%22`, the rest is
      unreserved. */
  const AndFilter: string := "and(equals(messages.channel%2C%22email%22)%2Cequals(status%2C%22sent%22))"
  const ChannelFilter: string := "equals(messages.channel%2C%22email%22)"
  const ExhaustedError: string := "All campaign list variants failed (404)."

  /** The three listing variants, most specific first, all for one cursor. */
  function ListingUrls(cursor: Option<string>): seq<string> {
    [ListingUrl(Some(AndFilter), cursor), ListingUrl(Some(ChannelFilter), cursor), ListingUrl(None, cursor)]
  }

  /** One listed page: `data` when it is an array, and `links.next ?? null`. */
  datatype Page = Page(items: seq<Json>, next: Json)

  function PageOf(res: Json): Page {
    Page(ArrayOrEmpty(Get(Some(res), "data")), OrNull(Get(Get(Some(res), "links"), "next")))
  }

  /** The position of the first successful answer, or the number of
      answers when none succeeds. */
  function FirstSuccessIndex(answers: seq<Result<Json, string>>): (n: nat)
    ensures n <= |answers|
    ensures forall j | 0 <= j < n :: answers[j].Failure?
    ensures n < |answers| ==> answers[n].Success?
  {
    if answers == [] || answers[0].Success? then 0
    else
      var m := FirstSuccessIndex(answers[1..]);
      assert forall j | 1 <= j < m + 1 :: answers[j] == answers[1..][j - 1];
      m + 1
  }

  /** Trying the answers left to right (`for (const url of urls) try …`):
      the first successful one wins; when none succeeds, the exhaustion
      error. */
  function FirstSuccess(answers: seq<Result<Json, string>>): (r: Result<Json, string>)
    ensures r.Failure? <==> forall k | 0 <= k < |answers| :: answers[k].Failure?
    ensures r.Failure? ==> r.error == ExhaustedError
    ensures r.Success? ==> r == answers[FirstSuccessIndex(answers)]
  {
    var n := FirstSuccessIndex(answers);
    if n == |answers| then Failure(ExhaustedError) else answers[n]
  }

  /** `tryCampaignList(cursor)`: the and-filter URL, then the channel-only
      URL, then the unfiltered URL, all for the same cursor; the first GET
      that does not throw gives the page, and only when all three throw does
      the listing fail, with its fixed message. */
  function TryCampaignList(remote: KlaviyoClient.Remote, cursor: Option<string>): (r: Result<Page, string>)
    ensures var u := ListingUrls(cursor);
      var a, b, c := KlaviyoClient.Get(remote, u[0]), KlaviyoClient.Get(remote, u[1]), KlaviyoClient.Get(remote, u[2]);
      && (a.Success? ==> r == Success(PageOf(a.value)))
      && (a.Failure? && b.Success? ==> r == Success(PageOf(b.value)))
      && (a.Failure? && b.Failure? && c.Success? ==> r == Success(PageOf(c.value)))
      && (r.Failure? <==> a.Failure? && b.Failure? && c.Failure?)
      && (r.Failure? ==> r.error == ExhaustedError)
  {
    var u := ListingUrls(cursor);
    var answers := [KlaviyoClient.Get(remote, u[0]), KlaviyoClient.Get(remote, u[1]), KlaviyoClient.Get(remote, u[2])];
    var first := FirstSuccess(answers);
    var n := FirstSuccessIndex(answers);
    assert answers[0].Success? ==> n == 0;
    assert answers[0].Failure? && answers[1].Success? ==> n == 1;
    assert answers[0].Failure? && answers[1].Failure? && answers[2].Success? ==> n == 2;
    match first
    case Success(res) => Success(PageOf(res))
    case Failure(e) => Failure(e)
  }

  /** The campaign's channel: the first non-nullish of the first message's
      channel, `message_channel` and `channel`, else `null`. */
  function Channel(campaign: Json): (r: Option<Json>)
    ensures var m0 := Attribute(At(Attribute(Some(campaign), "messages"), 0), "channel");
      var mc := Attribute(Some(campaign), "message_channel");
      var ch := Attribute(Some(campaign), "channel");
      && (!Nullish(m0) ==> r == m0)
      && (Nullish(m0) && !Nullish(mc) ==> r == mc)
      && (Nullish(m0) && Nullish(mc) && !Nullish(ch) ==> r == ch)
      && (Nullish(m0) && Nullish(mc) && Nullish(ch) ==> r == Some(JNull))
  {
    Coalesce(Coalesce(Coalesce(
      Attribute(At(Attribute(Some(campaign), "messages"), 0), "channel"),
      Attribute(Some(campaign), "message_channel")),
      Attribute(Some(campaign), "channel")),
      Some(JNull))
  }

  /** `String(channel || '').toLowerCase() === 'email'` */
  predicate IsEmail(campaign: Json) {
    Text.Lower(ValueString(Or(Channel(campaign), Some(JStr(""))))) == "email"
  }

  /** Whether the filter's `String(channel || '')` returns for the campaign;
      it is evaluated for every campaign, whatever its status. */
  predicate Filterable(campaign: Json) {
    ValueStringable(Or(Channel(campaign), Some(JStr(""))))
  }

  /** The lenient page filter: status exactly `'sent'`, or an email channel. */
  predicate Keep(campaign: Json) {
    IsString(Attribute(Some(campaign), "status"), "sent") || IsEmail(campaign)
  }

  /** The first message's channel is read with `??`, so an empty string
      there hides whatever `message_channel` and `channel` say. */
  lemma EmptyFirstChannelShadows(campaign: Json)
    requires Attribute(At(Attribute(Some(campaign), "messages"), 0), "channel") == Some(JStr(""))
    ensures !IsEmail(campaign)
    ensures Keep(campaign) <==> IsString(Attribute(Some(campaign), "status"), "sent")
  {
  }

  /** The status test is exact: a `'Sent'` campaign with no channel is
      dropped, while the channel test ignores ASCII case. */
  lemma StatusCaseMatters(campaign: Json)
    requires Attribute(Some(campaign), "status") == Some(JStr("Sent"))
    ensures Nullish(Channel(campaign)) ==> !Keep(campaign)
    ensures Channel(campaign) == Some(JStr("EMAIL")) ==> Keep(campaign)
  {
    if Channel(campaign) == Some(JStr("EMAIL")) {
      assert Text.Lower("EMAIL") == "email";
    }
  }

  /** What handling one message comes to: skipped, failed (and swallowed),
      or written with the store it leaves. */
  datatype Step = Skip | Fail(error: string) | Wrote(db: Store.Newsletters, kind: Store.WriteKind)

  /** The per-message block (route.ts, inside the try): message id, message
      metadata, send-time check, template chain, render, fields, upsert. A
      message is skipped when it has no truthy id, no send time or no
      template; each call that throws fails it with that call's error; what
      gets through is written on its id with the content of its draft. */
  function MessageStep(deps: Deps, campaign: Json, cid: Json, m: Json, db: Store.Newsletters): (r: Step)
    ensures r.Wrote? ==>
      && StringId(m).Some? && StringId(m).value in r.db
      && Lands(db, r.db, r.kind, StringId(m).value, cid, r.db[StringId(m).value].content)
    ensures var mid := Get(Some(m), "id");
      && (!Truthy(mid) ==> r == Skip)
      && (Truthy(mid) ==>
        var meta := FetchMeta(deps.remote, mid.value);
        && (meta.Failure? ==> r == Fail(meta.error))
        && (meta.Success? ==>
          var sentAt := SendTime(meta.value, campaign);
          && (!Truthy(sentAt) ==> r == Skip)
          && (Truthy(sentAt) ==>
            var tid := FetchTemplateId(deps.remote, mid.value);
            && (tid.Failure? ==> r == Fail(tid.error))
            && (tid == Success(None) ==> r == Skip)
            && (tid.Success? && tid.value.Some? ==>
              r == Deliver(deps, campaign, cid, mid.value, meta.value, sentAt.value, tid.value.value, db)))))
  {
    var mid := Get(Some(m), "id");
    if !Truthy(mid) then Skip
    else match FetchMeta(deps.remote, mid.value)
      case Failure(e) => Fail(e)
      case Success(meta) =>
        var sentAt := SendTime(meta, campaign);
        if !Truthy(sentAt) then Skip
        else match FetchTemplateId(deps.remote, mid.value)
          case Failure(e) => Fail(e)
          case Success(None) => Skip
          case Success(Some(templateId)) =>
            var d := Deliver(deps, campaign, cid, mid.value, meta, sentAt.value, templateId, db);
            assert d.Wrote? ==> StringId(m) == Some(mid.value.s);
            d
  }

  /** The rest of a message with a send time and a template: the render
      call, then the write of the draft's content on the id. */
  function Deliver(deps: Deps, campaign: Json, cid: Json, mid: Json, meta: Json, sentAt: Json, templateId: Json, db: Store.Newsletters): (r: Step)
    ensures r.Wrote? ==> mid.JStr? && mid.s in r.db && Lands(db, r.db, r.kind, mid.s, cid, r.db[mid.s].content)
    ensures var rendered := Render(deps.remote, templateId);
      && (rendered.Failure? ==> r == Fail(rendered.error))
      && (rendered.Success? ==>
        var content := ContentOf(deps, DraftOf(meta, campaign, rendered.value), sentAt);
        var w := Write(deps, db, mid, cid, meta, campaign, rendered.value, sentAt);
        && (w.Failure? ==> r == Fail(w.error))
        && (w.Success? ==> r == Wrote(w.value.0, w.value.1) && r.db[mid.s].content == content.value))
  {
    match Render(deps.remote, templateId)
    case Failure(e) => Fail(e)
    case Success(rendered) =>
      match Write(deps, db, mid, cid, meta, campaign, rendered, sentAt)
      case Failure(e) => Fail(e)
      case Success(w) => Wrote(w.0, w.1)
  }

  datatype Tally = Tally(added: nat, updated: nat)

  datatype State = State(db: Store.Newsletters, tally: Tally)

  /** What a later state keeps of an earlier one: no id disappears, the
      counters only grow, and `added` counts exactly the ids that appeared. */
  predicate Grows(a: State, b: State) {
    && a.db.Keys <= b.db.Keys
    && a.tally.added <= b.tally.added
    && a.tally.updated <= b.tally.updated
    && |b.db| - |a.db| == b.tally.added - a.tally.added
    && (Store.WellKeyed(a.db) ==> Store.WellKeyed(b.db))
  }

  /** Folding one step into the state: a write replaces the store and
      counts as added when it created a record and as updated otherwise; a
      skip or a swallowed failure changes nothing. */
  function Record(st: State, step: Step): (r: State)
    requires step.Wrote? ==> step.db.Keys >= st.db.Keys
    requires step.Wrote? ==> |step.db| == |st.db| + (if step.kind == Store.Created then 1 else 0)
    requires step.Wrote? ==> (Store.WellKeyed(st.db) ==> Store.WellKeyed(step.db))
    ensures Grows(st, r)
    ensures step.Wrote? ==> r.db == step.db
    ensures step.Wrote? && step.kind == Store.Created ==> r.tally == Tally(st.tally.added + 1, st.tally.updated)
    ensures step.Wrote? && step.kind == Store.Updated ==> r.tally == Tally(st.tally.added, st.tally.updated + 1)
    ensures !step.Wrote? ==> r == st
  {
    match step
    case Wrote(db, Created) => State(db, Tally(st.tally.added + 1, st.tally.updated))
    case Wrote(db, Updated) => State(db, Tally(st.tally.added, st.tally.updated + 1))
    case _ => st
  }

  /** The inner `for (const m of messages)` loop: every message is handled,
      whatever happened to the ones before it; each adds at most one to the
      counters, and only the records of the messages' own ids change. */
  function Messages(deps: Deps, campaign: Json, cid: Json, ms: seq<Json>, st: State): (r: State)
    ensures Grows(st, r)
    ensures r.tally.added + r.tally.updated <= st.tally.added + st.tally.updated + |ms|
    ensures r.db.Keys <= st.db.Keys + Ids(ms)
    ensures forall k | k in st.db && k !in Ids(ms) :: r.db[k] == st.db[k]
    decreases |ms|
  {
    if ms == [] then st
    else
      var next := Record(st, MessageStep(deps, campaign, cid, ms[0], st.db));
      IdsSplit(ms);
      Messages(deps, campaign, cid, ms[1..], next)
  }

  /** Handling a list of messages in two parts is handling the first part,
      then the second from where the first left off. */
  lemma {:induction false} MessagesAppend(deps: Deps, campaign: Json, cid: Json, a: seq<Json>, b: seq<Json>, st: State)
    ensures Messages(deps, campaign, cid, a + b, st) == Messages(deps, campaign, cid, b, Messages(deps, campaign, cid, a, st))
    decreases |a|
  {
    if a == [] {
      assert a + b == b;
    } else {
      assert (a + b)[0] == a[0];
      assert (a + b)[1..] == a[1..] + b;
      MessagesAppend(deps, campaign, cid, a[1..], b, Record(st, MessageStep(deps, campaign, cid, a[0], st.db)));
    }
  }

  /** A message that is skipped or whose handling throws leaves the state
      as it found it, so the messages after it are handled exactly as if it
      were not in the list. */
  lemma FailureIsolated(deps: Deps, campaign: Json, cid: Json, before: seq<Json>, m: Json, after: seq<Json>, st: State)
    requires !MessageStep(deps, campaign, cid, m, Messages(deps, campaign, cid, before, st).db).Wrote?
    ensures Messages(deps, campaign, cid, before + [m] + after, st) == Messages(deps, campaign, cid, before + after, st)
  {
    MessagesAround(deps, campaign, cid, before, m, after, st);
    MessagesAppend(deps, campaign, cid, before, after, st);
  }

  /** The loop over `before + [m] + after` handles `m` in the state the
      messages before it leave, and goes on from there. */
  lemma MessagesAround(deps: Deps, campaign: Json, cid: Json, before: seq<Json>, m: Json, after: seq<Json>, st: State)
    ensures var s := Messages(deps, campaign, cid, before, st);
      Messages(deps, campaign, cid, before + [m] + after, st)
        == Messages(deps, campaign, cid, after, Record(s, MessageStep(deps, campaign, cid, m, s.db)))
  {
    MessagesAppend(deps, campaign, cid, before, [m] + after, st);
    Seqs.Around(before, m, after);
  }

  /** A message whose handling writes is stored: unless a later message of
      the list carries the same id, the loop ends with the record that
      message wrote, and the write is counted, as added when it created the
      record and as updated otherwise. */
  lemma WriteLands(deps: Deps, campaign: Json, cid: Json, before: seq<Json>, m: Json, after: seq<Json>, st: State)
    requires MessageStep(deps, campaign, cid, m, Messages(deps, campaign, cid, before, st).db).Wrote?
    ensures var s := Messages(deps, campaign, cid, before, st);
      var step := MessageStep(deps, campaign, cid, m, s.db);
      var k := StringId(m).value;
      var r := Messages(deps, campaign, cid, before + [m] + after, st);
      && k in r.db
      && (k !in Ids(after) ==> r.db[k] == step.db[k])
      && (step.kind == Store.Created ==> r.tally.added >= s.tally.added + 1)
      && (step.kind == Store.Updated ==> r.tally.updated >= s.tally.updated + 1)
  {
    var s := Messages(deps, campaign, cid, before, st);
    var step := MessageStep(deps, campaign, cid, m, s.db);
    var k := StringId(m).value;
    var next := Record(s, step);
    MessagesAround(deps, campaign, cid, before, m, after, st);
    var r := Messages(deps, campaign, cid, after, next);
    assert k in next.db;
    assert Grows(next, r);
  }

  /** Whether a kept campaign lets the walk go on: it has no truthy id, or
      its messages can be listed. */
  predicate Listable(remote: KlaviyoClient.Remote, c: Json) {
    !Truthy(Get(Some(c), "id")) || FetchCampaignMessages(remote, Get(Some(c), "id").value).Success?
  }

  /** The position of the first campaign whose messages cannot be listed,
      or the number of campaigns when there is none. */
  function BrokenIndex(remote: KlaviyoClient.Remote, cs: seq<Json>): (n: nat)
    ensures n <= |cs|
    ensures forall j | 0 <= j < n :: Listable(remote, cs[j])
    ensures n < |cs| ==> !Listable(remote, cs[n])
  {
    if cs == [] || !Listable(remote, cs[0]) then 0
    else
      var n := BrokenIndex(remote, cs[1..]);
      assert forall j | 1 <= j < n + 1 :: cs[j] == cs[1..][j - 1];
      n + 1
  }

  /** The walk over the kept campaigns of one page, stopped by the first
      failure to list a campaign's messages. */
  datatype Walk = Walk(state: State, error: Option<string>)

  /** The campaign loop: a campaign without a truthy id is passed over; for
      the others the messages are listed and handled. The walk fails exactly
      when some campaign's messages cannot be listed (`CampaignsFail`), with
      the error of the first such campaign (`CampaignsFirstError`). */
  function Campaigns(deps: Deps, cs: seq<Json>, st: State): (r: Walk)
    ensures Grows(st, r.state)
    decreases |cs|
  {
    if cs == [] then Walk(st, None)
    else
      var cid := Get(Some(cs[0]), "id");
      if !Truthy(cid) then Campaigns(deps, cs[1..], st)
      else match FetchCampaignMessages(deps.remote, cid.value)
        case Failure(e) => Walk(st, Some(e))
        case Success(ms) => Campaigns(deps, cs[1..], Messages(deps, cs[0], cid.value, ms, st))
  }

  /** The state the first campaign leaves when its messages can be listed. */
  function AfterFirst(deps: Deps, cs: seq<Json>, st: State): State
    requires cs != [] && Listable(deps.remote, cs[0])
  {
    var cid := Get(Some(cs[0]), "id");
    if !Truthy(cid) then st
    else Messages(deps, cs[0], cid.value, FetchCampaignMessages(deps.remote, cid.value).value, st)
  }

  /** The walk either fails on its first campaign or goes on with the rest
      from the state that campaign leaves. */
  lemma CampaignsHead(deps: Deps, cs: seq<Json>, st: State)
    requires cs != []
    ensures Listable(deps.remote, cs[0]) ==> Campaigns(deps, cs, st) == Campaigns(deps, cs[1..], AfterFirst(deps, cs, st))
    ensures !Listable(deps.remote, cs[0]) ==>
      Campaigns(deps, cs, st).error == Some(FetchCampaignMessages(deps.remote, Get(Some(cs[0]), "id").value).error)
  {
  }

  /** The walk fails exactly when some campaign's messages cannot be listed. */
  lemma {:induction false} CampaignsFail(deps: Deps, cs: seq<Json>, st: State)
    ensures Campaigns(deps, cs, st).error.None? <==> forall i | 0 <= i < |cs| :: Listable(deps.remote, cs[i])
    decreases |cs|
  {
    if cs != [] {
      CampaignsHead(deps, cs, st);
      if Listable(deps.remote, cs[0]) {
        CampaignsFail(deps, cs[1..], AfterFirst(deps, cs, st));
        assert forall i | 1 <= i < |cs| :: cs[i] == cs[1..][i - 1];
      }
    }
  }

  /** A failed walk fails with the error of the first campaign whose
      messages cannot be listed. */
  lemma {:induction false} CampaignsFirstError(deps: Deps, cs: seq<Json>, st: State)
    ensures var r := Campaigns(deps, cs, st);
      r.error.Some? ==>
        var n := BrokenIndex(deps.remote, cs);
        n < |cs| && r.error.value == FetchCampaignMessages(deps.remote, Get(Some(cs[n]), "id").value).error
    decreases |cs|
  {
    if cs != [] {
      CampaignsHead(deps, cs, st);
      if Listable(deps.remote, cs[0]) {
        CampaignsFirstError(deps, cs[1..], AfterFirst(deps, cs, st));
        var n := BrokenIndex(deps.remote, cs[1..]);
        assert BrokenIndex(deps.remote, cs) == n + 1;
        assert n < |cs| - 1 ==> cs[n + 1] == cs[1..][n];
      }
    }
  }

  /** How the page loop ends: all pages done, an error that escaped to the
      outer catch, or still going when the fuel (a bound on the number of
      pages) ran out. */
  datatype Outcome = Finished(state: State) | Aborted(error: string, state: State) | Stalled(state: State)

  /** What one pass of the loop body decides: stop with an outcome, or go
      on with the next cursor from the state the pass left. */
  datatype Turn = Stop(outcome: Outcome) | Continue(cursor: Option<string>, state: State)

  function TurnState(t: Turn): State {
    match t
    case Stop(o) => o.state
    case Continue(_, s) => s
  }

  /** One pass of the loop body: list the page, filter it, walk the kept
      campaigns, parse the next link. A failed listing, a filter that
      throws, a failed walk or a next link that does not parse stops the
      loop with that error; an empty next cursor stops it after this page;
      a non-empty one goes on with it. */
  function PageTurn(deps: Deps, cursor: Option<string>, st: State): (r: Turn)
    ensures Grows(st, TurnState(r))
    ensures var list := TryCampaignList(deps.remote, cursor);
      && (list.Failure? ==> r == Stop(Aborted(list.error, st)))
      && (list.Success? && !(forall i | 0 <= i < |list.value.items| :: Filterable(list.value.items[i])) ==>
            r == Stop(Aborted(ConversionError, st)))
      && (list.Success? && (forall i | 0 <= i < |list.value.items| :: Filterable(list.value.items[i])) ==>
            r == PageKept(deps, list.value, st))
  {
    match TryCampaignList(deps.remote, cursor)
    case Failure(e) => Stop(Aborted(e, st))
    case Success(page) =>
      if !(forall i | 0 <= i < |page.items| :: Filterable(page.items[i])) then Stop(Aborted(ConversionError, st))
      else PageKept(deps, page, st)
  }

  /** A pass over a listed page whose filter returned: the kept campaigns
      are walked, then the next link decides whether to go on. */
  function PageKept(deps: Deps, page: Page, st: State): (r: Turn)
    ensures Grows(st, TurnState(r))
    ensures var w := Campaigns(deps, Seqs.Filter(page.items, Keep), st);
      var next := NextCursor(deps, page.next);
      && (w.error.Some? ==> r == Stop(Aborted(w.error.value, w.state)))
      && (w.error.None? && next.Failure? ==> r == Stop(Aborted(next.error, w.state)))
      && (w.error.None? && next.Success? && !HasCursor(next.value) ==> r == Stop(Finished(w.state)))
      && (w.error.None? && next.Success? && HasCursor(next.value) ==> r == Continue(next.value, w.state))
  {
    var w := Campaigns(deps, Seqs.Filter(page.items, Keep), st);
    if w.error.Some? then Stop(Aborted(w.error.value, w.state))
    else match NextCursor(deps, page.next)
      case Failure(e) => Stop(Aborted(e, w.state))
      case Success(next) =>
        if HasCursor(next) then Continue(next, w.state) else Stop(Finished(w.state))
  }

  /** The `do … while (cursor)` loop: one pass after another while the
      fuel lasts, until a pass stops (`PagesContinue` for a pass that goes
      on). */
  function Pages(deps: Deps, cursor: Option<string>, fuel: nat, st: State): (r: Outcome)
    ensures Grows(st, r.state)
    ensures fuel == 0 ==> r == Stalled(st)
    ensures fuel > 0 && PageTurn(deps, cursor, st).Stop? ==> r == PageTurn(deps, cursor, st).outcome
    decreases fuel
  {
    if fuel == 0 then Stalled(st)
    else match PageTurn(deps, cursor, st)
      case Stop(o) => o
      case Continue(next, s) => Pages(deps, next, fuel - 1, s)
  }

  /** A pass that goes on is followed by the loop from the next cursor and
      the state the pass left. */
  lemma PagesContinue(deps: Deps, cursor: Option<string>, fuel: nat, st: State)
    requires fuel > 0
    requires PageTurn(deps, cursor, st).Continue?
    ensures var t := PageTurn(deps, cursor, st);
      Pages(deps, cursor, fuel, st) == Pages(deps, t.cursor, fuel - 1, t.state)
  {
  }

  /** The JSON reply: 200 with the counters, 500 with the error message, or
      none when the run is still going. */
  datatype Reply = Imported(added: nat, updated: nat) | ImportFailed(error: string) | NoReply

  function SuccessNote(added: nat, updated: nat): string {
    "added=" + Text.NatToString(added) + ", updated=" + Text.NatToString(updated)
  }

  /** `POST`: one log row is opened RUNNING and closed SUCCESS with the
      returned counters in its note, or ERROR with the returned error; it
      stays RUNNING only while the page loop has not ended. Records are
      never removed, and on success `added` is the number of new ids. */
  function Run(deps: Deps, fuel: nat, db: Store.Db): (r: (Reply, Store.Db))
    ensures |r.1.logs| == |db.logs| + 1 && r.1.logs[..|db.logs|] == db.logs
    ensures var row := r.1.logs[|db.logs|];
      && (r.0.Imported? <==> row.status == Store.SUCCESS)
      && (r.0.ImportFailed? <==> row.status == Store.ERROR)
      && (r.0.NoReply? <==> row.status == Store.RUNNING)
      && (r.0.Imported? ==> row.note == Some(SuccessNote(r.0.added, r.0.updated)))
      && (r.0.ImportFailed? ==> row.note == Some(r.0.error))
    ensures db.newsletters.Keys <= r.1.newsletters.Keys
    ensures r.0.Imported? ==> |r.1.newsletters| == |db.newsletters| + r.0.added
    ensures Store.WellKeyed(db.newsletters) ==> Store.WellKeyed(r.1.newsletters)
    ensures var o := Pages(deps, None, fuel, State(db.newsletters, Tally(0, 0)));
      && r.1.newsletters == o.state.db
      && (o.Finished? ==> r.0 == Imported(o.state.tally.added, o.state.tally.updated))
      && (o.Aborted? ==> r.0 == ImportFailed(o.error))
      && (o.Stalled? ==> r.0 == NoReply)
  {
    var (logs, id) := Store.OpenLog(db.logs);
    match Pages(deps, None, fuel, State(db.newsletters, Tally(0, 0)))
    case Finished(st) =>
      (Imported(st.tally.added, st.tally.updated),
       Store.Db(st.db, Store.CloseLog(logs, id, Store.SUCCESS, SuccessNote(st.tally.added, st.tally.updated))))
    case Aborted(e, st) =>
      (ImportFailed(e), Store.Db(st.db, Store.CloseLog(logs, id, Store.ERROR, e)))
    case Stalled(st) =>
      (NoReply, Store.Db(st.db, logs))
  }

  /** The success note determines the two counters it reports. */
  lemma SuccessNoteInjective(added: nat, updated: nat, added': nat, updated': nat)
    requires SuccessNote(added, updated) == SuccessNote(added', updated')
    ensures added == added' && updated == updated'
  {
    var a, a' := Text.NatToString(added), Text.NatToString(added');
    var u, u' := Text.NatToString(updated), Text.NatToString(updated');
    assert SuccessNote(added, updated) == "added=" + (a + (", updated=" + u));
    assert SuccessNote(added', updated') == "added=" + (a' + (", updated=" + u'));
    Text.PrefixCancel("added=", a + (", updated=" + u), a' + (", updated=" + u'));
    Text.DigitRunSplit(a, ", updated=" + u, a', ", updated=" + u');
    Text.NatToStringInjective(added, added');
    Text.PrefixCancel(", updated=", u, u');
    Text.NatToStringInjective(updated, updated');
  }

  /** A first listing that fails ends the run at once: the reply is the
      listing's error, the log row is closed ERROR with it, and no record
      is written. */
  lemma FirstListingFailureFails(deps: Deps, fuel: nat, db: Store.Db)
    requires fuel > 0
    requires TryCampaignList(deps.remote, None).Failure?
    ensures var r := Run(deps, fuel, db);
      && r.0 == ImportFailed(ExhaustedError)
      && r.1.logs[|db.logs|].status == Store.ERROR
      && r.1.newsletters == db.newsletters
  {
  }

  /** Without an API key every listing variant fails before reaching the
      network, so a run ends with the exhaustion error in its log row and
      writes nothing. */
  lemma MissingKeyFails(deps: Deps, fuel: nat, db: Store.Db)
    requires !KlaviyoClient.Present(deps.remote.env.apiKey)
    requires fuel > 0
    ensures Run(deps, fuel, db).0 == ImportFailed(ExhaustedError)
    ensures Run(deps, fuel, db).1.newsletters == db.newsletters
  {
    var u := ListingUrls(None);
    assert KlaviyoClient.Get(deps.remote, u[0]).Failure?;
    assert KlaviyoClient.Get(deps.remote, u[1]).Failure?;
    assert KlaviyoClient.Get(deps.remote, u[2]).Failure?;
    assert TryCampaignList(deps.remote, None) == Failure(ExhaustedError);
    FirstListingFailureFails(deps, fuel, db);
  }
}
